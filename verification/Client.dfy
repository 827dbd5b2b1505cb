/**
 * The trading client as the bridge and the UI see it: a log of the commands
 * pushed to it and a queue of the events it has produced and not yet handed
 * out. Its worker loop, connection and locking are not part of this model.
 */
module Client {
  import opened Trading

  class IbkrClient {
    const host: string
    const port: int
    const clientId: int
    /** Every command pushed so far, oldest first. */
    var commands: seq<Command>
    /** Events produced and not yet consumed, oldest first. */
    var events: seq<Event>

    constructor (host: string, port: int, clientId: int)
      ensures this.host == host && this.port == port && this.clientId == clientId
      ensures commands == [] && events == []
    {
      this.host, this.port, this.clientId := host, port, clientId;
      commands, events := [], [];
    }

    /** Queues one command for the worker; events are untouched. */
    method PushCommand(c: Command)
      modifies this
      ensures commands == old(commands) + [c]
      ensures events == old(events)
    {
      commands := commands + [c];
    }

    /** Hands out every queued event in FIFO order and empties the queue. */
    method ConsumeEvents() returns (batch: seq<Event>)
      modifies this
      ensures batch == old(events)
      ensures events == []
      ensures commands == old(commands)
    {
      batch := events;
      events := [];
    }
  }
}
