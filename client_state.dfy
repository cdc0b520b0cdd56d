/** The process-wide state the persistence code shares with the rest of the client. */
module ClientState {
  import opened NetworkingTypes

  class Client {
    /** The world's entities and the components of each that persistence reads or writes. */
    var entities: World
    /** `localClientID`: None until the client has joined the hub channel (see `Connected`). */
    var localClientId: Option<ClientId>
    /** `APP.hub.hub_id`: the hub the client is currently in. */
    var hubId: string
    /** `storedUpdates`: updates that arrived for entities not yet resolvable, per
        network id, in the insertion order of the JavaScript Map. */
    var storedUpdates: seq<(Nid, seq<Update>)>
    /** `pendingMessages`: messages queued for the network-receive system. */
    var pendingMessages: seq<Message>
    /** Every call issued on the hub channel, oldest first. */
    var sent: seq<ChannelCall>
  }
}
