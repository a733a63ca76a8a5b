/** Live output events: splitting, encoding and publishing chunks (delegator/task_events.go). */
module TaskEvents {
  import opened Base64
  import opened Sequences
  import opened Wrappers

  const MAX_RAW := 5000
  // A notification payload must be shorter than this.
  const NOTIFY_LIMIT := 8000

  // ---- splitting ----

  // Pieces of exactly max bytes, but for a shorter, non-empty last one; the chunk whole if there is no limit to split
  // at.
  ghost predicate IsSplit(chunk: seq<Byte>, max: int, pieces: seq<seq<Byte>>) {
    && Flatten(pieces) == chunk && pieces != []
    && (max > 0 ==> forall i :: 0 <= i < |pieces| - 1 ==> |pieces[i]| == max)
    && (max > 0 ==> |pieces[|pieces|-1]| <= max)
    && (max <= 0 ==> |pieces| == 1)
    && (|pieces| > 1 ==> pieces[|pieces|-1] != [])
  }

  method SplitBytes(chunk: seq<Byte>, max: int) returns (pieces: seq<seq<Byte>>)
    ensures IsSplit(chunk, max, pieces)
  {
    if max <= 0 || |chunk| <= max {
      pieces := [chunk];
      FlattenAppend([], chunk);
      return;
    }
    pieces := [];
    var b := chunk;
    while |b| > max
      invariant Flatten(pieces) + b == chunk && b != []
      invariant forall i :: 0 <= i < |pieces| ==> |pieces[i]| == max
    {
      Chop(pieces, b, max);
      pieces := pieces + [b[..max]];
      b := b[max..];
    }
    if |b| > 0 {
      FlattenAppend(pieces, b);
      pieces := pieces + [b];
    }
  }

  lemma {:induction false} Chop(pieces: seq<seq<Byte>>, b: seq<Byte>, at: nat)
    requires at <= |b|
    ensures Flatten(pieces + [b[..at]]) + b[at..] == Flatten(pieces) + b
  {
    FlattenAppend(pieces, b[..at]);
    assert b[..at] + b[at..] == b;
  }

  // There are as many pieces as the length divided by the limit, rounded up.
  lemma {:induction false} PieceCount(chunk: seq<Byte>, max: int, pieces: seq<seq<Byte>>)
    requires IsSplit(chunk, max, pieces) && max > 0 && chunk != []
    ensures |pieces| == (|chunk| + max - 1) / max
  {
    var n, last := |pieces| - 1, pieces[|pieces|-1];
    EqualParts(pieces[..n], max);
    assert |chunk| == n * max + |last|;
    if n == 0 {
      assert last == chunk;
    }
    CeilingOf(n, max, |last|);
  }

  lemma {:induction false} EqualParts(parts: seq<seq<Byte>>, size: nat)
    requires forall i :: 0 <= i < |parts| ==> |parts[i]| == size
    ensures |Flatten(parts)| == |parts| * size
  {
    if parts == [] {
    } else {
      EqualParts(parts[..|parts|-1], size);
      assert |parts| * size == (|parts| - 1) * size + size;
    }
  }

  lemma {:induction false} CeilingOf(n: nat, max: nat, rest: nat)
    requires 0 < rest <= max
    ensures (n * max + rest + max - 1) / max == n + 1
  {
    var x := n * max + rest + max - 1;
    assert x == max * (n + 1) + (rest - 1);
    DivideUnique(x, max, n + 1, rest - 1);
  }

  lemma {:induction false} DivideUnique(x: int, d: int, q: int, r: int)
    requires x == d * q + r && 0 <= r < d
    ensures x / d == q
  {
    var k := x / d - q;
    assert x == d * (x / d) + x % d;
    assert d * k == r - x % d;
    MultipleIsLarge(d, k);
  }

  lemma {:induction false} MultipleIsLarge(d: nat, k: int)
    ensures k >= 1 ==> d * k >= d
    ensures k <= -1 ==> d * k + d <= 0
  {
  }

  // The limits determine the split.
  lemma {:induction false} SplitUnique(chunk: seq<Byte>, max: int, a: seq<seq<Byte>>, b: seq<seq<Byte>>)
    requires IsSplit(chunk, max, a) && IsSplit(chunk, max, b)
    ensures a == b
    decreases |a|
  {
    FlattenFirst(a);
    FlattenFirst(b);
    if |a| > 1 && |b| > 1 {
      assert a[0] == chunk[..max] == b[0];
      SplitUnique(chunk[max..], max, a[1..], b[1..]);
      assert a == [a[0]] + a[1..] && b == [b[0]] + b[1..];
    } else {
      SinglePiece(chunk, max, a);
      SinglePiece(chunk, max, b);
      assert a == [chunk] && b == [chunk];
    }
  }

  // A split has one piece just when the chunk is within the limit or there is none.
  lemma {:induction false} SinglePiece(chunk: seq<Byte>, max: int, a: seq<seq<Byte>>)
    requires IsSplit(chunk, max, a)
    ensures |a| == 1 <==> max <= 0 || |chunk| <= max
    ensures |a| == 1 ==> a == [chunk]
  {
    FlattenFirst(a);
    if |a| == 1 {
      assert Flatten(a[1..]) == [] && a[0] + [] == a[0];
    } else {
      FlattenConcat(a[1..|a|-1], [a[|a|-1]]);
      assert a[1..] == a[1..|a|-1] + [a[|a|-1]];
      FlattenAppend([], a[|a|-1]);
    }
  }

  // ---- payloads ----

  datatype Stream = Stdout | Stderr
  {
    function Name(): string {
      if this == Stdout then "stdout" else "stderr"
    }
  }

  datatype Notification = Notification(channel: string, payload: string)

  const CLOSE := ['\"', '}']

  function Open(stream: Stream): string {
    "{\"stream\":\"" + stream.Name() + "\",\"data\":\""
  }

  // json.Marshal of the envelope; neither the stream names nor base64 need escaping.
  function Payload(stream: Stream, piece: seq<Byte>): string {
    Open(stream) + Encode(piece) + CLOSE
  }

  // The piece a subscriber to one stream reads from a payload.
  function Receive(stream: Stream, payload: string): Option<seq<Byte>> {
    if Open(stream) <= payload && |payload| >= |Open(stream)| + 2 then
      Decode(payload[|Open(stream)|..|payload|-2])
    else None
  }

  lemma {:induction false} OpenLength(stream: Stream)
    ensures |Open(stream)| == 27
  {
  }

  lemma {:induction false} PayloadLength(stream: Stream, piece: seq<Byte>)
    ensures |Payload(stream, piece)| == 29 + (|piece| + 2) / 3 * 4
  {
    OpenLength(stream);
    EncodedLength(piece);
    var data := Encode(piece);
    assert |Open(stream) + data + CLOSE| == 29 + |data|;
  }

  // The limit on raw bytes keeps a payload within what a notification may carry; 5976 would be the exact limit.
  lemma {:induction false} PayloadFitsIff(stream: Stream, piece: seq<Byte>)
    ensures |Payload(stream, piece)| < 8000 <==> |piece| <= 5976
    ensures |piece| <= MAX_RAW ==> |Payload(stream, piece)| <= 6697
  {
    PayloadLength(stream, piece);
    GroupsFit(|piece|);
  }

  lemma {:induction false} GroupsFit(n: nat)
    ensures 29 + (n + 2) / 3 * 4 < NOTIFY_LIMIT <==> n <= 5976
    ensures n <= MAX_RAW ==> 29 + (n + 2) / 3 * 4 <= 6697
  {
  }

  lemma {:induction false} OpensDiffer(stream: Stream, other: Stream)
    requires stream != other
    ensures |Open(stream)| == |Open(other)| && Open(stream)[14] != Open(other)[14]
  {
    assert Stdout.Name()[3] == 'o' && Stderr.Name()[3] == 'e';
  }

  lemma {:induction false} ReceivePayload(stream: Stream, other: Stream, piece: seq<Byte>)
    ensures Receive(other, Payload(stream, piece)) == if other == stream then Some(piece) else None
  {
    var payload := Payload(stream, piece);
    if other == stream {
      assert payload[|Open(stream)|..|payload|-2] == Encode(piece);
      RoundTrip(piece);
    } else {
      OpensDiffer(stream, other);
      assert payload[14] == Open(stream)[14];
    }
  }

  // ---- channels ----

  function ChannelChar(c: char): char {
    if 'a' <= c <= 'z' || '0' <= c <= '9' then c
    else if 'A' <= c <= 'Z' then (c as int - 'A' as int + 'a' as int) as char
    else '_'
  }

  // One character for every rune of the id.
  function Sanitized(s: string): (r: string)
    ensures |r| == |s| && forall i :: 0 <= i < |s| ==> r[i] == ChannelChar(s[i])
  {
    if s == [] then [] else [ChannelChar(s[0])] + Sanitized(s[1..])
  }

  method SanitizeChannel(s: string) returns (r: string)
    ensures r == Sanitized(s) && |r| == |s|
    ensures forall i :: 0 <= i < |s| ==>
              && ('a' <= s[i] <= 'z' || '0' <= s[i] <= '9' ==> r[i] == s[i])
              && ('A' <= s[i] <= 'Z' ==> 'a' <= r[i] <= 'z' && r[i] as int - 'a' as int == s[i] as int - 'A' as int)
              && (!('a' <= s[i] <= 'z') && !('0' <= s[i] <= '9') && !('A' <= s[i] <= 'Z') ==> r[i] == '_')
  {
    r := [];
    for i := 0 to |s|
      invariant |r| == i && forall k :: 0 <= k < i ==> r[k] == ChannelChar(s[k])
    {
      var c := s[i];
      if 'a' <= c <= 'z' || '0' <= c <= '9' {
        r := r + [c];
      } else if 'A' <= c <= 'Z' {
        r := r + [(c as int + ('a' as int - 'A' as int)) as char];
      } else {
        r := r + ['_'];
      }
    }
  }

  const CHANNEL_PREFIX := "delegator_task_"

  function TaskChannel(taskID: string): string {
    CHANNEL_PREFIX + Sanitized(taskID)
  }

  // Task ids as the delegator makes them: lower-case letters, digits and hyphens.
  predicate IsTaskID(s: string) {
    forall c :: c in s ==> 'a' <= c <= 'z' || '0' <= c <= '9' || c == '-'
  }

  // Such tasks never share a channel.
  lemma {:induction false} ChannelsAreDistinct(a: string, b: string)
    requires IsTaskID(a) && IsTaskID(b) && TaskChannel(a) == TaskChannel(b)
    ensures a == b
  {
    assert TaskChannel(a)[|CHANNEL_PREFIX|..] == Sanitized(a);
    assert TaskChannel(b)[|CHANNEL_PREFIX|..] == Sanitized(b);
    forall i | 0 <= i < |a|
      ensures a[i] == b[i]
    {
      assert a[i] in a && b[i] in b;
      assert Sanitized(a)[i] == Sanitized(b)[i];
    }
  }

  // ---- publishing ----

  function Packer(channel: string, stream: Stream): seq<Byte> -> Notification {
    (piece: seq<Byte>) => Notification(channel, Payload(stream, piece))
  }

  function Notes(channel: string, stream: Stream, pieces: seq<seq<Byte>>): seq<Notification> {
    Mapped(Packer(channel, stream), pieces)
  }

  lemma {:induction false} NotesPicked(channel: string, stream: Stream, pieces: seq<seq<Byte>>,
          piece: seq<Byte>, up: nat -> bool)
    ensures Picked(Notes(channel, stream, pieces + [piece]), up)
            == Picked(Notes(channel, stream, pieces), up)
               + if up(|pieces|) then [Packer(channel, stream)(piece)] else []
  {
    var pack := Packer(channel, stream);
    MappedLast(pack, pieces, piece);
    MappedCount(pack, pieces);
    PickedLast(Mapped(pack, pieces), pack(piece), up);
  }

  class PgTaskEvents {
    const pool: bool
    var sent: seq<Notification>

    constructor (pool: bool)
      ensures this.pool == pool && sent == []
    {
      this.pool, sent := pool, [];
    }

    /** Publish: fire and forget. The attempts that fail are skipped. */
    method Publish(taskID: string, stream: Stream, chunk: seq<Byte>, up: nat -> bool)
      returns (ghost pieces: seq<seq<Byte>>)
      modifies this
      ensures !pool || chunk == [] ==> pieces == []
      ensures pool && chunk != [] ==> IsSplit(chunk, 5000, pieces)
      ensures sent == old(sent) + Picked(Notes(TaskChannel(taskID), stream, pieces), up)
    {
      pieces := [];
      if !pool || |chunk| == 0 {
        return;
      }
      var name := SanitizeChannel(taskID);
      var channel := CHANNEL_PREFIX + name;
      var split := SplitBytes(chunk, MAX_RAW);
      PublishPieces(channel, stream, split, up);
      pieces := split;
    }

    method PublishPieces(channel: string, stream: Stream, pieces: seq<seq<Byte>>, up: nat -> bool)
      modifies this
      ensures sent == old(sent) + Picked(Notes(channel, stream, pieces), up)
    {
      ghost var before := sent;
      for i := 0 to |pieces|
        invariant sent == before + Picked(Notes(channel, stream, pieces[..i]), up)
      {
        assert pieces[..i+1] == pieces[..i] + [pieces[i]];
        NotesPicked(channel, stream, pieces[..i], pieces[i], up);
        Notify(Packer(channel, stream)(pieces[i]), up(i));
      }
      assert pieces[..|pieces|] == pieces;
    }

    // One pg_notify, which may fail.
    method Notify(note: Notification, delivered: bool)
      modifies this
      ensures sent == old(sent) + if delivered then [note] else []
    {
      if delivered {
        sent := sent + [note];
      }
    }
  }

  // What is sent for a piece: the channel of the task, and the envelope with the stream and the encoded bytes.
  lemma {:induction false} NoteText(taskID: string, piece: seq<Byte>)
    ensures Packer(TaskChannel(taskID), Stdout)(piece) ==
            Notification("delegator_task_" + Sanitized(taskID),
                         "{\"stream\":\"stdout\",\"data\":\"" + Encode(piece) + "\"}")
    ensures Packer(TaskChannel(taskID), Stderr)(piece) ==
            Notification("delegator_task_" + Sanitized(taskID),
                         "{\"stream\":\"stderr\",\"data\":\"" + Encode(piece) + "\"}")
  {
    assert Open(Stdout) == "{\"stream\":\"stdout\",\"data\":\"";
    assert Open(Stderr) == "{\"stream\":\"stderr\",\"data\":\"";
    assert CLOSE == "\"}";
  }

  // A subscriber to one stream of one channel.
  function Listener(channel: string, stream: Stream): Notification -> seq<Byte> {
    (note: Notification) =>
      if note.channel == channel && Receive(stream, note.payload).Some? then Receive(stream, note.payload).value else []
  }

  // What it has read, in order.
  function Heard(channel: string, stream: Stream, log: seq<Notification>): seq<Byte> {
    Collect(Listener(channel, stream), log)
  }

  lemma {:induction false} ListenerHears(channel: string, stream: Stream, to: string, on: Stream, piece: seq<Byte>)
    ensures Listener(channel, stream)(Packer(to, on)(piece)) == if to == channel && on == stream then piece else []
  {
    ReceivePayload(on, stream, piece);
  }

  // One publication adds to what is heard exactly the pieces that got through, whole and in order.
  lemma {:induction false} HeardOfNotes(channel: string, stream: Stream, to: string, on: Stream,
          pieces: seq<seq<Byte>>, up: nat -> bool)
    ensures Heard(channel, stream, Picked(Notes(to, on, pieces), up))
            == if to == channel && on == stream then Flatten(Picked(pieces, up)) else []
  {
    var same := to == channel && on == stream;
    var h := (piece: seq<Byte>) => if same then piece else [];
    forall piece
      ensures Listener(channel, stream)(Packer(to, on)(piece)) == h(piece)
    {
      ListenerHears(channel, stream, to, on, piece);
    }
    PickedMapped(Packer(to, on), pieces, up);
    CollectMapped(Listener(channel, stream), Packer(to, on), h, Picked(pieces, up));
    CollectParts(h, Picked(pieces, up));
  }

  // ---- a whole run ----

  datatype Call = Call(taskID: string, stream: Stream, chunk: seq<Byte>, pieces: seq<seq<Byte>>, up: nat -> bool)
  {
    // As Publish leaves them, on a publisher with a pool.
    ghost predicate Done() {
      if chunk == [] then pieces == [] else IsSplit(chunk, MAX_RAW, pieces)
    }

    ghost predicate Delivered() {
      forall k :: 0 <= k < |pieces| ==> up(k)
    }
  }

  function LogOf(calls: seq<Call>): seq<Notification>
  {
    if calls == [] then []
    else
      var c := calls[|calls|-1];
      LogOf(calls[..|calls|-1]) + Picked(Notes(TaskChannel(c.taskID), c.stream, c.pieces), c.up)
  }

  // The bytes a task wrote to a stream.
  function Written(taskID: string, stream: Stream, calls: seq<Call>): seq<Byte>
  {
    if calls == [] then []
    else
      var c := calls[|calls|-1];
      Written(taskID, stream, calls[..|calls|-1]) + if c.taskID == taskID && c.stream == stream then c.chunk else []
  }

  // However the calls of tasks and streams interleave, a subscriber puts together exactly what the task wrote to the
  // stream.
  lemma {:induction false} SubscriberHearsTheStream(taskID: string, stream: Stream, calls: seq<Call>)
    requires IsTaskID(taskID)
    requires forall c :: c in calls ==> IsTaskID(c.taskID) && c.Done() && c.Delivered()
    ensures Heard(TaskChannel(taskID), stream, LogOf(calls)) == Written(taskID, stream, calls)
  {
    if calls == [] {
    } else {
      var front, c := calls[..|calls|-1], calls[|calls|-1];
      SubscriberHearsTheStream(taskID, stream, front);
      var channel, to := TaskChannel(taskID), TaskChannel(c.taskID);
      CollectAppend(Listener(channel, stream), LogOf(front), Picked(Notes(to, c.stream, c.pieces), c.up));
      HeardOfNotes(channel, stream, to, c.stream, c.pieces, c.up);
      AllPicked(c.pieces, c.up);
      if to == channel {
        ChannelsAreDistinct(taskID, c.taskID);
      }
    }
  }
}
