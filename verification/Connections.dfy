/** The registry of live connections: per device the connection that authenticated last as it. */
module ConnectionRegistry {
  import opened Options

  type Online = map<string, nat>

  function RemovedIf(online: Online, device: string, conn: nat): Online {
    if device in online && online[device] == conn then online - {device} else online
  }

  function Entry(online: Online, device: string): Option<nat> {
    if device in online then Some(online[device]) else None
  }

  class Connections {
    var online: Online

    constructor ()
      ensures online == map[]
    {
      online := map[];
    }

    method Insert(device: string, conn: nat)
      modifies this
      ensures online == old(online)[device := conn]
    {
      online := online[device := conn];
    }

    method RemoveIf(device: string, conn: nat)
      modifies this
      ensures online == RemovedIf(old(online), device, conn)
    {
      if device in online && online[device] == conn {
        online := online - {device};
      }
    }

    method Get(device: string) returns (conn: Option<nat>)
      ensures conn == Entry(online, device)
    {
      if device in online {
        conn := Some(online[device]);
      } else {
        conn := None;
      }
    }

    method Remove(device: string)
      modifies this
      ensures online == old(online) - {device}
    {
      online := online - {device};
    }
  }
}
