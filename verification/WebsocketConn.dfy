/**
 * A byte stream over WebSocket messages (tokilake-core/ws_conn.go): reads ignore message
 * boundaries and non-binary messages, and lose or repeat nothing.
 */
module WebsocketConn {
  import opened Basics

  datatype WsMessage = WsMessage(binary: bool, data: seq<byte>)

  /** The stream a sequence of messages carries. */
  function Payload(messages: seq<WsMessage>): seq<byte> {
    if messages == [] then []
    else (if messages[0].binary then messages[0].data else []) + Payload(messages[1..])
  }

  class WebsocketStreamConn {
    /** Messages not yet opened; after them the connection fails. */
    var incoming: seq<WsMessage>
    /** What is left of the message being read. */
    var currentReader: Option<seq<byte>>
    var outgoing: seq<WsMessage>

    function Current(): seq<byte>
      reads this
    {
      if currentReader.Some? then currentReader.value else []
    }

    function Unread(): seq<byte>
      reads this
    {
      Current() + Payload(incoming)
    }

    constructor (incoming: seq<WsMessage>)
      ensures Unread() == Payload(incoming) && outgoing == []
    {
      this.incoming := incoming;
      currentReader, outgoing := None, [];
    }

    /**
     * Fills a buffer of the given size. A message reader may return any non-empty part of what fits, and may report
     * the end of its message together with the last bytes or on the next call.
     */
    method Read(size: nat) returns (data: seq<byte>, ok: bool)
      requires size > 0
      modifies this`incoming, this`currentReader
      ensures ok <==> data != []
      ensures ok <==> old(Unread()) != []
      ensures |data| <= size && data + Unread() == old(Unread())
    {
      hide Payload;
      NoPayload();
      data := [];
      while true
        invariant Unread() == old(Unread()) && data == []
        decreases |incoming|, currentReader.Some?
      {
        if currentReader == None {
          if incoming == [] {
            return [], false;
          }
          var m := incoming[0];
          PayloadNext(incoming);
          incoming := incoming[1..];
          if !m.binary {
            continue;
          }
          currentReader := Some(m.data);
        }
        var left := currentReader.value;
        if left == [] {
          currentReader := None;
          continue;
        }
        var n: nat :| 0 < n <= |left| && n <= size;
        assert left == left[..n] + left[n..];
        Assoc(left[..n], left[n..], Payload(incoming));
        data := left[..n];
        var atEnd: bool := *;
        currentReader := if n == |left| && atEnd then None else Some(left[n..]);
        return data, true;
      }
    }

    method Write(data: seq<byte>)
      modifies this`outgoing
      ensures outgoing == old(outgoing) + [WsMessage(true, data)]
      ensures Payload(outgoing) == old(Payload(outgoing)) + data
    {
      PayloadAppend(outgoing, WsMessage(true, data));
      outgoing := outgoing + [WsMessage(true, data)];
    }

    /** Reads to the end: whatever the sizes asked for, the stream that was written comes out. */
    method ReadAll(sizes: nat -> nat) returns (all: seq<byte>)
      requires forall i :: sizes(i) > 0
      modifies this`incoming, this`currentReader
      ensures all == old(Unread())
    {
      all := [];
      var i := 0;
      while true
        invariant all + Unread() == old(Unread())
        decreases |Unread()|
      {
        ghost var before := all;
        var data, ok := Read(sizes(i));
        if !ok {
          return;
        }
        Assoc(before, data, Unread());
        all := all + data;
        i := i + 1;
      }
    }
  }

  lemma NoPayload()
    ensures Payload([]) == []
  {
  }

  lemma PayloadNext(messages: seq<WsMessage>)
    requires messages != []
    ensures Payload(messages) == (if messages[0].binary then messages[0].data else []) + Payload(messages[1..])
  {
  }

  lemma {:induction false} PayloadAppend(messages: seq<WsMessage>, m: WsMessage)
    ensures Payload(messages + [m]) == Payload(messages) + if m.binary then m.data else []
  {
    var own := if m.binary then m.data else [];
    if messages == [] {
      assert messages + [m] == [m] && [m][1..] == [];
      PayloadNext([m]);
    } else {
      var first := if messages[0].binary then messages[0].data else [];
      TailOfConcat(messages, [m]);
      PayloadNext(messages);
      PayloadNext(messages + [m]);
      PayloadAppend(messages[1..], m);
      hide *;
      Assoc(first, Payload(messages[1..]), own);
    }
  }

  /** Writing `writes` one by one and reading them back: message boundaries are invisible. */
  lemma {:induction false} BoundariesInvisible(writes: seq<seq<byte>>)
    ensures Payload(seq(|writes|, i requires 0 <= i < |writes| => WsMessage(true, writes[i]))) == Concat(writes)
  {
    if writes != [] {
      var messages := seq(|writes|, i requires 0 <= i < |writes| => WsMessage(true, writes[i]));
      var rest := writes[1..];
      assert messages[1..] == seq(|rest|, i requires 0 <= i < |rest| => WsMessage(true, rest[i]));
      BoundariesInvisible(rest);
    }
  }

  function Concat(writes: seq<seq<byte>>): seq<byte> {
    if writes == [] then [] else writes[0] + Concat(writes[1..])
  }
}
