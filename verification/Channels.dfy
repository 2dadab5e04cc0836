/** The channels that tickets are issued for and that both ends of a WebSocket know. */
module Channels {
  const CHANNELS: set<string> := {"system.health", "session.events"}
}
