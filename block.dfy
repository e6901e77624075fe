/**
 * The inline bookkeeping of Rts2Block, the common base of every RTS2 daemon and client:
 * the ordered list of connections, the idle timeout of the event loop, the priority flag
 * of a connection, the stored master (observatory) state and the one-letter verbs of the
 * wire protocol.
 */
module Block {

  /** The one-letter verbs that open a protocol line (PROTO_VALUE ... PROTO_SELMETAINFO). */
  const PROTO_VALUE: string := "V"
  const PROTO_SET_VALUE: string := "X"
  const PROTO_SET_VALUE_DEF: string := "Y"
  const PROTO_DATA: string := "D"
  const PROTO_AUTH: string := "A"
  const PROTO_PRIORITY: string := "P"
  const PROTO_PRIORITY_INFO: string := "Q"
  const PROTO_INFO: string := "I"
  const PROTO_STATUS: string := "S"
  const PROTO_TECHNICAL: string := "T"
  const PROTO_MESSAGE: string := "M"
  const PROTO_METAINFO: string := "E"
  const PROTO_SELMETAINFO: string := "F"

  function ProtocolVerbs(): (verbs: seq<string>)
    ensures |verbs| == 13
  {
    [PROTO_VALUE, PROTO_SET_VALUE, PROTO_SET_VALUE_DEF, PROTO_DATA, PROTO_AUTH,
     PROTO_PRIORITY, PROTO_PRIORITY_INFO, PROTO_INFO, PROTO_STATUS, PROTO_TECHNICAL,
     PROTO_MESSAGE, PROTO_METAINFO, PROTO_SELMETAINFO]
  }

  /** A line's verb names exactly one message class: the verbs are distinct single characters. */
  lemma ProtocolVerbsDistinct()
    ensures forall i :: 0 <= i < |ProtocolVerbs()| ==> |ProtocolVerbs()[i]| == 1
    ensures forall i, j :: 0 <= i < j < |ProtocolVerbs()| ==> ProtocolVerbs()[i] != ProtocolVerbs()[j]
  {
    var v := ProtocolVerbs();
    forall i, j | 0 <= i < j < |v| ensures v[i] != v[j] {
      assert v[i][0] != v[j][0];
    }
  }

  /** The part of a connection (Rts2Conn) that the block's inline members touch. */
  class Connection {
    const centraldId: int
    var havePriority: bool

    constructor (id: int)
      ensures centraldId == id && !havePriority
    {
      centraldId := id;
      havePriority := false;
    }
  }

  class Rts2Block {
    var idleTimeout: int      // long int, in milliseconds
    var priorityClient: int
    var masterState: int
    var connections: seq<Connection>   // std::list<Rts2Conn *>, in list order

    constructor (timeout: int, client: int)
      ensures idleTimeout == timeout && priorityClient == client
      ensures masterState == 0 && connections == []
    {
      idleTimeout := timeout;
      priorityClient := client;
      masterState := 0;
      connections := [];
    }

    /** The number of connections held by the block. */
    function ConnectionSize(): (n: int)
      reads this
      ensures n == |connections|
    {
      |connections|
    }

    /**
     * The connection at position i in list order, found by walking the list with a
     * counter and an iterator; NULL past the end. A negative i stops the walk at once,
     * so it yields the first connection (or NULL when there is none).
     */
    method ConnectionAt(i: int) returns (c: Connection?)
      ensures 0 <= i < ConnectionSize() ==> c == connections[i]
      ensures i >= ConnectionSize() ==> c == null
      ensures i < 0 ==> c == if connections == [] then null else connections[0]
      ensures c == null <==> (i >= ConnectionSize() || connections == [])
    {
      var j := 0;
      var iter := 0;
      while j < i && iter != |connections|
        invariant 0 <= iter <= |connections|
        invariant iter == j
        invariant if i >= 0 then j <= i else j == 0
        decreases |connections| - iter
      {
        j := j + 1;
        iter := iter + 1;
      }
      if iter == |connections| {
        return null;
      }
      return connections[iter];
    }

    /** Sets the idle timeout of the event loop. */
    method SetTimeout(newTimeout: int)
      modifies this`idleTimeout
      ensures idleTimeout == newTimeout
    {
      idleTimeout := newTimeout;
    }

    /** Lowers the idle timeout to newTimeout; never raises it. */
    method SetTimeoutMin(newTimeout: int)
      modifies this`idleTimeout
      ensures idleTimeout <= old(idleTimeout) && idleTimeout <= newTimeout
      ensures idleTimeout == old(idleTimeout) || idleTimeout == newTimeout
    {
      if newTimeout < idleTimeout {
        idleTimeout := newTimeout;
      }
    }

    /**
     * Grants the priority flag to conn when it is the connection of the current priority
     * client; the flag is never cleared here and nothing else changes.
     */
    method CheckPriority(conn: Connection)
      modifies conn`havePriority
      ensures conn.havePriority == (old(conn.havePriority) || conn.centraldId == priorityClient)
    {
      if conn.centraldId == priorityClient {
        conn.havePriority := true;
      }
    }

    /** The hook a device overrides to react to a new master state; the block itself accepts any. */
    function ChangeMasterState(newState: int): (r: int)
      ensures r == 0
    {
      0
    }

    /** Stores the new master state and answers with the hook's result. */
    method SetMasterState(newState: int) returns (r: int)
      modifies this`masterState
      ensures GetMasterState() == newState
      ensures r == ChangeMasterState(newState)
    {
      masterState := newState;
      r := ChangeMasterState(newState);
    }

    function GetMasterState(): (s: int)
      reads this
      ensures s == masterState
    {
      masterState
    }
  }
}
