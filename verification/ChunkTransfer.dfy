/** Cutting a file into framed chunks and putting it together again from frames in any order
    (`internal/sync/file_sync.go`, `internal/sync/client.go`). */
module ChunkTransfer {
  import opened ByteTypes
  import opened Options

  const UINT32: int := 0x1_0000_0000
  const SESSION_ID_LENGTH: nat := 36
  const HEADER: nat := 40

  // ----- Frames ------------------------------------------------------------------------------------

  function BigEndian(n: nat): (r: Bytes)
    requires n < UINT32
    ensures |r| == 4
  {
    [n / 0x100_0000, n / 0x1_0000 % 0x100, n / 0x100 % 0x100, n % 0x100]
  }

  function Uint32Of(b: Bytes): (n: nat)
    requires |b| == 4
    ensures n < UINT32
  {
    var b0: int, b1: int, b2: int, b3: int := b[0], b[1], b[2], b[3];
    b0 * 0x100_0000 + b1 * 0x1_0000 + b2 * 0x100 + b3
  }

  lemma Uint32OfBigEndian(n: nat)
    requires n < UINT32
    ensures Uint32Of(BigEndian(n)) == n
  {
    var b := n / 0x100;
    var c := b / 0x100;
    assert n == b * 0x100 + n % 0x100 && b == c * 0x100 + b % 0x100 && c == c / 0x100 * 0x100 + c % 0x100;
    assert c == n / 0x1_0000 && c / 0x100 == n / 0x100_0000;
  }

  lemma BigEndianOfUint32(b: Bytes)
    requires |b| == 4
    ensures BigEndian(Uint32Of(b)) == b
  {
    var m, b0: int, b1: int, b2: int := Uint32Of(b), b[0], b[1], b[2];
    assert m / 0x100_0000 == b0 && m / 0x1_0000 == b0 * 0x100 + b1;
    assert m / 0x100 == b0 * 0x1_0000 + b1 * 0x100 + b2;
  }

  function Payload(sessionId: Bytes, index: nat, data: Bytes): Bytes
    requires |sessionId| == SESSION_ID_LENGTH && index < UINT32
  {
    sessionId + BigEndian(index) + data
  }

  datatype Chunk = Chunk(sessionId: Bytes, index: nat, data: Bytes)

  function Decode(payload: Bytes): (r: Option<Chunk>)
    ensures r.Some? ==> |r.value.sessionId| == SESSION_ID_LENGTH && r.value.index < UINT32
  {
    if |payload| < HEADER then None
    else Some(Chunk(payload[..36], Uint32Of(payload[36..40]), payload[40..]))
  }

  /** Decoding and encoding are inverse to each other. */
  lemma DecodePayload(sessionId: Bytes, index: nat, data: Bytes)
    requires |sessionId| == SESSION_ID_LENGTH && index < UINT32
    ensures Decode(Payload(sessionId, index, data)) == Some(Chunk(sessionId, index, data))
  {
    var p := Payload(sessionId, index, data);
    assert p[..36] == sessionId && p[36..40] == BigEndian(index) && p[40..] == data;
    Uint32OfBigEndian(index);
  }

  lemma PayloadDecode(payload: Bytes)
    ensures Decode(payload).Some? <==> |payload| >= HEADER
    ensures |payload| >= HEADER ==>
      var c := Decode(payload).value; Payload(c.sessionId, c.index, c.data) == payload
  {
    if |payload| >= HEADER {
      BigEndianOfUint32(payload[36..40]);
      assert payload[..36] + payload[36..40] + payload[40..] == payload;
    }
  }

  method CopyInto(buffer: array<Byte>, start: nat, data: Bytes)
    requires start + |data| <= buffer.Length
    modifies buffer
    ensures buffer[..] == old(buffer[..start]) + data + old(buffer[start + |data|..])
  {
    ghost var was := buffer[..];
    for i := 0 to |data|
      invariant buffer[..] == was[..start] + data[..i] + was[start + i..]
    {
      buffer[start + i] := data[i];
    }
  }

  lemma ThreeCopies(zero: Bytes, a: Bytes, b: Bytes, c: Bytes, one: Bytes, two: Bytes, three: Bytes)
    requires |zero| == |a| + |b| + |c|
    requires one == zero[..0] + a + zero[|a|..]
    requires two == one[..|a|] + b + one[|a| + |b|..]
    requires three == two[..|a| + |b|] + c + two[|a| + |b| + |c|..]
    ensures three == a + b + c
  {
    assert one[..|a|] == a;
    assert two[..|a| + |b|] == a + b;
  }

  /** `encodeFileBinaryPayload`: three copies into one buffer. */
  method EncodeFileBinaryPayload(sessionId: Bytes, index: nat, data: Bytes) returns (payload: array?<Byte>)
    requires index < UINT32
    ensures payload == null <==> |sessionId| != SESSION_ID_LENGTH
    ensures payload != null ==> fresh(payload) && payload[..] == Payload(sessionId, index, data)
  {
    if |sessionId| != SESSION_ID_LENGTH {
      return null;
    }
    payload := new Byte[HEADER + |data|](_ => 0);
    ghost var zero := payload[..];
    CopyInto(payload, 0, sessionId);
    ghost var one := payload[..];
    CopyInto(payload, 36, BigEndian(index));
    ghost var two := payload[..];
    CopyInto(payload, 40, data);
    hide BigEndian;
    ThreeCopies(zero, sessionId, BigEndian(index), data, one, two, payload[..]);
  }

  /** The layout of a payload, byte by byte: the session id, the index with its most significant byte first, and
      the data. */
  lemma PayloadLayout(sessionId: Bytes, index: nat, data: Bytes)
    requires |sessionId| == SESSION_ID_LENGTH && index < UINT32
    ensures var p := Payload(sessionId, index, data);
      && |p| == 40 + |data| && p[..36] == sessionId && p[40..] == data
      && p[36] as int * 0x100_0000 + p[37] as int * 0x1_0000 + p[38] as int * 0x100 + p[39] as int == index
  {
    var p := Payload(sessionId, index, data);
    Uint32OfBigEndian(index);
    assert p[36..40] == BigEndian(index);
    assert forall i | 0 <= i < 4 :: p[36 + i] == p[36..40][i];
  }

  /** Encoded indices are in the order of the indices, so comparing them byte by byte is enough. */
  lemma BigEndianOrder(m: nat, n: nat)
    requires m < n < UINT32
    ensures var a, b := BigEndian(m), BigEndian(n); exists k | 0 <= k < 4 :: a[..k] == b[..k] && a[k] < b[k]
  {
    var a, b := BigEndian(m), BigEndian(n);
    Uint32OfBigEndian(m);
    Uint32OfBigEndian(n);
    var k := if a[0] != b[0] then 0 else if a[1] != b[1] then 1 else if a[2] != b[2] then 2 else 3;
    hide BigEndian;
    FirstDigit(a, b, k);
  }

  lemma FirstDigit(a: Bytes, b: Bytes, k: nat)
    requires |a| == |b| == 4 && k < 4 && Uint32Of(a) < Uint32Of(b)
    requires (forall i | 0 <= i < k :: a[i] == b[i]) && (k < 3 ==> a[k] != b[k])
    ensures a[..k] == b[..k] && a[k] < b[k]
  {
  }

  /** `SendBinary` puts a prefix of two bytes in front; `dispatchBinary` takes it off to find the
      handler, and drops what it cannot place. */
  function Frame(prefix: Bytes, payload: Bytes): Option<Bytes> {
    if |prefix| != 2 then None else Some(prefix + payload)
  }

  function Dispatch(handlers: set<Bytes>, frame: Bytes): Option<(Bytes, Bytes)> {
    if |frame| < 2 || frame[..2] !in handlers then None else Some((frame[..2], frame[2..]))
  }

  /** "00", the prefix of `handleFileBinaryChunk`, which is the only handler of binary messages. */
  const FILE_SYNC: Bytes := [48, 48]
  const HANDLERS: set<Bytes> := {FILE_SYNC}

  lemma DispatchFrame(handlers: set<Bytes>, prefix: Bytes, payload: Bytes)
    requires |prefix| == 2
    ensures Dispatch(handlers, Frame(prefix, payload).value) ==
            if prefix in handlers then Some((prefix, payload)) else None
  {
    assert (prefix + payload)[..2] == prefix && (prefix + payload)[2..] == payload;
  }

  // ----- Chunks ------------------------------------------------------------------------------------

  function TotalChunks(length: nat, chunkSize: nat): nat
    requires chunkSize > 0
  {
    if length > 0 then (length + chunkSize - 1) / chunkSize else 1
  }

  /** The number of chunks is the least one, but at least one, that holds the content: an empty file is sent as one
      empty chunk. */
  lemma TotalChunksLeast(length: nat, chunkSize: nat, n: nat)
    requires chunkSize > 0
    ensures n >= TotalChunks(length, chunkSize) <==> n >= 1 && n * chunkSize >= length
  {
    var t := TotalChunks(length, chunkSize);
    if length > 0 {
      ChunkBounds(length, chunkSize, t - 1);
      assert (t - 1) * chunkSize + chunkSize == t * chunkSize;
      if n >= t {
        Order(t, n, chunkSize);
      } else {
        Order(n, t - 1, chunkSize);
        if t > 1 {
          ChunkBounds(length, chunkSize, t - 2);
          assert (t - 2) * chunkSize + chunkSize == (t - 1) * chunkSize;
        }
      }
    } else {
      Order(1, if n >= 1 then n else 1, chunkSize);
    }
  }

  function Min(a: int, b: int): int { if a < b then a else b }

  function ChunkAt(content: Bytes, chunkSize: nat, i: nat): Bytes
    requires chunkSize > 0 && i < TotalChunks(|content|, chunkSize)
  {
    ChunkBounds(|content|, chunkSize, i);
    content[i * chunkSize..Min(i * chunkSize + chunkSize, |content|)]
  }

  lemma ChunkBounds(length: nat, chunkSize: nat, i: nat)
    requires chunkSize > 0 && i < TotalChunks(length, chunkSize)
    ensures 0 <= i * chunkSize <= Min(i * chunkSize + chunkSize, length)
    ensures i == TotalChunks(length, chunkSize) - 1 <==> i * chunkSize + chunkSize >= length
  {
    if length > 0 {
      var n := TotalChunks(length, chunkSize);
      var q := length + chunkSize - 1;
      assert n * chunkSize <= q < n * chunkSize + chunkSize;
      Order(i + 1, n, chunkSize);
      assert (i + 1) * chunkSize == i * chunkSize + chunkSize;
      if i + 1 < n {
        Order(i + 2, n, chunkSize);
        assert (i + 2) * chunkSize == i * chunkSize + chunkSize + chunkSize;
      }
    }
  }

  lemma {:induction false} Order(a: nat, b: nat, c: nat)
    requires a <= b
    ensures a * c <= b * c
  {
    if a < b {
      Order(a, b - 1, c);
      assert b * c == (b - 1) * c + c;
    }
  }

  function Joined(content: Bytes, chunkSize: nat, n: nat): Bytes
    requires chunkSize > 0 && n <= TotalChunks(|content|, chunkSize)
  {
    if n == 0 then [] else Joined(content, chunkSize, n - 1) + ChunkAt(content, chunkSize, n - 1)
  }

  lemma Next(i: nat, c: nat)
    ensures (i + 1) * c == i * c + c
  {
  }

  lemma ChunkGlues(content: Bytes, chunkSize: nat, i: nat)
    requires chunkSize > 0 && i < TotalChunks(|content|, chunkSize)
    ensures content[..Min(i * chunkSize, |content|)] + ChunkAt(content, chunkSize, i) ==
            content[..Min((i + 1) * chunkSize, |content|)]
  {
    ChunkBounds(|content|, chunkSize, i);
    hide TotalChunks;
    Next(i, chunkSize);
    Glue(content, i * chunkSize, Min(i * chunkSize + chunkSize, |content|));
  }

  lemma {:induction false} JoinedPrefix(content: Bytes, chunkSize: nat, n: nat)
    requires chunkSize > 0 && n <= TotalChunks(|content|, chunkSize)
    ensures Joined(content, chunkSize, n) == content[..Min(n * chunkSize, |content|)]
  {
    hide TotalChunks, ChunkAt;
    if n > 0 {
      JoinedPrefix(content, chunkSize, n - 1);
      ChunkGlues(content, chunkSize, n - 1);
    }
  }

  lemma Glue(content: Bytes, a: nat, b: nat)
    requires a <= b <= |content|
    ensures content[..a] + content[a..b] == content[..b]
  {
  }

  /** The chunks cut the content without gap or overlap. */
  lemma ChunksJoin(content: Bytes, chunkSize: nat)
    requires chunkSize > 0
    ensures Joined(content, chunkSize, TotalChunks(|content|, chunkSize)) == content
  {
    var n := TotalChunks(|content|, chunkSize);
    JoinedPrefix(content, chunkSize, n);
    assert n > 0;
    ChunkBounds(|content|, chunkSize, n - 1);
    hide TotalChunks, Joined;
    Next(n - 1, chunkSize);
    assert content[..|content|] == content;
  }

  // ----- The receiving session -----------------------------------------------------------------

  /** A download session; `files` is its temporary directory, `merges` counts the merges started. */
  datatype Session = Session(
    sessionId: Bytes, totalChunks: int, received: set<nat>, files: map<nat, Bytes>, merging: bool, aborted: bool,
    merges: nat)

  function Opened(sessionId: Bytes, totalChunks: int): Session {
    Session(sessionId, totalChunks, {}, map[], false, false, 0)
  }

  /** `handleFileBinaryChunk` for a payload that names this session. */
  function Accept(s: Session, index: nat, data: Bytes): Session {
    if s.aborted then s
    else if index >= s.totalChunks % UINT32 then s.(aborted := true)
    else if index in s.received then s
    else
      var t := s.(files := s.files[index := data], received := s.received + {index});
      if |t.received| == t.totalChunks && !t.merging then t.(merging := true, merges := t.merges + 1) else t
  }

  function Receive(s: Session, payload: Bytes): Session {
    match Decode(payload)
    case None => s
    case Some(c) => if c.sessionId != s.sessionId then s else Accept(s, c.index, c.data)
  }

  /** What comes in over the connection goes through the dispatcher. */
  function ReceiveFrame(s: Session, frame: Bytes): Session {
    match Dispatch(HANDLERS, frame)
    case None => s
    case Some((_, payload)) => Receive(s, payload)
  }

  function Merged(files: map<nat, Bytes>, n: nat): Option<Bytes> {
    if n == 0 then Some([])
    else
      var before := Merged(files, n - 1);
      if before.Some? && n - 1 in files then Some(before.value + files[n - 1]) else None
  }

  /** The assembling loop of `mergeDownloadSession`. */
  method AssembleChunks(files: map<nat, Bytes>, totalChunks: int) returns (out: Option<Bytes>)
    ensures out == Merged(files, if totalChunks > 0 then totalChunks else 0)
  {
    var bytes: Bytes := [];
    var i := 0;
    while i < totalChunks
      invariant 0 <= i && (totalChunks >= 0 ==> i <= totalChunks) && (totalChunks < 0 ==> i == 0)
      invariant Merged(files, i) == Some(bytes)
    {
      if i !in files {
        MergedMissing(files, i, totalChunks);
        return None;
      }
      bytes := bytes + files[i];
      i := i + 1;
    }
    out := Some(bytes);
  }

  /** The files that are missing are exactly what stops a merge. */
  lemma {:induction false} MergedMissing(files: map<nat, Bytes>, i: nat, n: nat)
    requires i < n && i !in files
    ensures Merged(files, n) == None
  {
    if i < n - 1 {
      MergedMissing(files, i, n - 1);
    }
  }

  // ----- Round trip --------------------------------------------------------------------------------

  predicate Sendable(content: Bytes, chunkSize: nat, sessionId: Bytes) {
    chunkSize > 0 && TotalChunks(|content|, chunkSize) < UINT32 && |sessionId| == SESSION_ID_LENGTH
  }

  /** What the upload loop sends for chunk `i`; `SentFrame` is what goes over the connection. */
  function Sent(content: Bytes, chunkSize: nat, sessionId: Bytes, i: nat): Bytes
    requires Sendable(content, chunkSize, sessionId) && i < TotalChunks(|content|, chunkSize)
  {
    Payload(sessionId, i, ChunkAt(content, chunkSize, i))
  }

  function SentFrame(content: Bytes, chunkSize: nat, sessionId: Bytes, i: nat): Bytes
    requires Sendable(content, chunkSize, sessionId) && i < TotalChunks(|content|, chunkSize)
  {
    Frame(FILE_SYNC, Sent(content, chunkSize, sessionId, i)).value
  }

  function Range(n: nat): (r: set<nat>)
    ensures |r| == n && forall i: nat :: i in r <==> i < n
  {
    if n == 0 then {} else Range(n - 1) + {n - 1}
  }

  lemma FullSet(s: set<nat>, n: nat)
    requires s <= Range(n)
    ensures |s| == n <==> s == Range(n)
  {
    assert Range(n) == s + (Range(n) - s);
  }

  /** The bookkeeping of a session of `n` chunks after those in `got` have arrived. */
  ghost predicate Collected(s: Session, n: nat, got: set<nat>) {
    && s.totalChunks == n && !s.aborted && got <= Range(n) && s.received == got && s.files.Keys == got
    && (s.merging <==> got == Range(n)) && s.merges == (if s.merging then 1 else 0)
  }

  ghost predicate Holding(s: Session, content: Bytes, chunkSize: nat, sessionId: Bytes, got: set<nat>)
    requires Sendable(content, chunkSize, sessionId)
  {
    && s.sessionId == sessionId && Collected(s, TotalChunks(|content|, chunkSize), got)
    && forall i | i in got :: s.files[i] == ChunkAt(content, chunkSize, i)
  }

  lemma AcceptCollected(s: Session, n: nat, got: set<nat>, i: nat, data: Bytes)
    requires Collected(s, n, got) && i < n < UINT32
    ensures var t := Accept(s, i, data);
      && Collected(t, n, got + {i}) && t.sessionId == s.sessionId
      && t.files == if i in got then s.files else s.files[i := data]
  {
    hide Range;
    if i in got {
      assert got + {i} == got;
    } else {
      var t, more := Accept(s, i, data), got + {i};
      assert n % UINT32 == n;
      assert i in Range(n);
      assert more <= Range(n);
      FullSet(more, n);
      assert t.files == s.files[i := data] && t.received == more;
      assert t.files.Keys == more;
      assert got != Range(n);
    }
  }

  lemma AcceptHolding(s: Session, content: Bytes, chunkSize: nat, sessionId: Bytes, got: set<nat>, i: nat)
    requires Sendable(content, chunkSize, sessionId) && i < TotalChunks(|content|, chunkSize)
    requires Holding(s, content, chunkSize, sessionId, got)
    ensures Holding(Accept(s, i, ChunkAt(content, chunkSize, i)), content, chunkSize, sessionId, got + {i})
  {
    hide ChunkAt, TotalChunks, Accept, Collected;
    AcceptCollected(s, TotalChunks(|content|, chunkSize), got, i, ChunkAt(content, chunkSize, i));
  }

  /** The session that was opened for the content and got the frames of `order`, one by one. */
  ghost function Delivered(content: Bytes, chunkSize: nat, sessionId: Bytes, order: seq<nat>): Session
    requires Sendable(content, chunkSize, sessionId) && Indices(order, TotalChunks(|content|, chunkSize))
  {
    if order == [] then Opened(sessionId, TotalChunks(|content|, chunkSize))
    else
      var n := |order| - 1;
      ReceiveFrame(Delivered(content, chunkSize, sessionId, order[..n]),
        SentFrame(content, chunkSize, sessionId, order[n]))
  }

  ghost predicate Indices(order: seq<nat>, n: nat) { forall k | 0 <= k < |order| :: order[k] < n }

  function IndexSet(order: seq<nat>): (r: set<nat>)
    ensures forall i :: i in r <==> i in order
  {
    set i | i in order
  }

  lemma IndexSnoc(order: seq<nat>)
    requires order != []
    ensures var n := |order| - 1; IndexSet(order) == IndexSet(order[..n]) + {order[n]}
  {
    assert order == order[..|order| - 1] + [order[|order| - 1]];
  }

  /** Framing, dispatch, encoding and decoding cancel out. */
  lemma FrameAccepted(s: Session, content: Bytes, chunkSize: nat, sessionId: Bytes, i: nat)
    requires Sendable(content, chunkSize, sessionId) && i < TotalChunks(|content|, chunkSize)
    requires s.sessionId == sessionId
    ensures ReceiveFrame(s, SentFrame(content, chunkSize, sessionId, i)) == Accept(s, i, ChunkAt(content, chunkSize, i))
  {
    hide Accept, ChunkAt, TotalChunks;
    DispatchFrame(HANDLERS, FILE_SYNC, Sent(content, chunkSize, sessionId, i));
    DecodePayload(sessionId, i, ChunkAt(content, chunkSize, i));
  }

  lemma ReceiveHolding(s: Session, content: Bytes, chunkSize: nat, sessionId: Bytes, got: set<nat>, i: nat)
    requires Sendable(content, chunkSize, sessionId) && i < TotalChunks(|content|, chunkSize)
    requires Holding(s, content, chunkSize, sessionId, got)
    ensures var t := ReceiveFrame(s, SentFrame(content, chunkSize, sessionId, i));
      Holding(t, content, chunkSize, sessionId, got + {i})
  {
    AcceptHolding(s, content, chunkSize, sessionId, got, i);
    FrameAccepted(s, content, chunkSize, sessionId, i);
  }

  lemma NothingHeld(content: Bytes, chunkSize: nat, sessionId: Bytes)
    requires Sendable(content, chunkSize, sessionId)
    ensures Holding(Opened(sessionId, TotalChunks(|content|, chunkSize)), content, chunkSize, sessionId, IndexSet([]))
  {
    assert Range(TotalChunks(|content|, chunkSize)) != {};
  }

  lemma {:induction false} ReceiveAnyOrder(content: Bytes, chunkSize: nat, sessionId: Bytes, order: seq<nat>)
    requires Sendable(content, chunkSize, sessionId) && Indices(order, TotalChunks(|content|, chunkSize))
    ensures Holding(Delivered(content, chunkSize, sessionId, order), content, chunkSize, sessionId, IndexSet(order))
  {
    hide Holding, ReceiveFrame, SentFrame, TotalChunks, IndexSet, Opened;
    if order == [] {
      NothingHeld(content, chunkSize, sessionId);
    } else {
      var n := |order| - 1;
      ReceiveAnyOrder(content, chunkSize, sessionId, order[..n]);
      IndexSnoc(order);
      ReceiveHolding(Delivered(content, chunkSize, sessionId, order[..n]), content, chunkSize, sessionId,
        IndexSet(order[..n]), order[n]);
    }
  }

  lemma {:induction false} MergedContent(s: Session, content: Bytes, chunkSize: nat, sessionId: Bytes, n: nat)
    requires Sendable(content, chunkSize, sessionId) && n <= TotalChunks(|content|, chunkSize)
    requires Holding(s, content, chunkSize, sessionId, Range(TotalChunks(|content|, chunkSize)))
    ensures Merged(s.files, n) == Some(Joined(content, chunkSize, n))
  {
    hide ChunkAt, TotalChunks;
    if n > 0 {
      MergedContent(s, content, chunkSize, sessionId, n - 1);
      assert n - 1 in Range(TotalChunks(|content|, chunkSize));
    }
  }

  /** Delivering the frames of a file in any order, with any duplicates: one merge is started exactly
      when all indices have arrived, and it yields the original bytes. */
  lemma {:induction false} TransferRoundTrip(content: Bytes, chunkSize: nat, sessionId: Bytes, order: seq<nat>)
    requires Sendable(content, chunkSize, sessionId) && Indices(order, TotalChunks(|content|, chunkSize))
    ensures var n, s := TotalChunks(|content|, chunkSize), Delivered(content, chunkSize, sessionId, order);
      && !s.aborted
      && s.merges == (if forall i: nat | i < n :: i in order then 1 else 0)
      && (s.merges == 1 ==> Merged(s.files, n) == Some(content))
  {
    hide TotalChunks, Delivered, ChunkAt;
    var n, s := TotalChunks(|content|, chunkSize), Delivered(content, chunkSize, sessionId, order);
    ReceiveAnyOrder(content, chunkSize, sessionId, order);
    AllThere(order, n);
    if IndexSet(order) == Range(n) {
      MergedContent(s, content, chunkSize, sessionId, n);
      ChunksJoin(content, chunkSize);
    }
  }

  lemma AllThere(order: seq<nat>, n: nat)
    requires Indices(order, n)
    ensures IndexSet(order) == Range(n) <==> forall i: nat | i < n :: i in order
  {
    if forall i: nat | i < n :: i in order {
      assert forall i | i in IndexSet(order) :: i in Range(n);
      assert forall i | i in Range(n) :: i in IndexSet(order);
      assert IndexSet(order) == Range(n);
    } else {
      var i: nat :| i < n && i !in order;
      assert i in Range(n) && i !in IndexSet(order);
    }
  }

  /** An index out of range ends the session for good; frames of other sessions do nothing. */
  lemma OutOfRangeAborts(s: Session, c: Chunk)
    requires |c.sessionId| == SESSION_ID_LENGTH && c.index < UINT32 && !s.aborted
    ensures var t := Receive(s, Payload(c.sessionId, c.index, c.data));
      && (t.aborted <==> c.sessionId == s.sessionId && c.index >= s.totalChunks % UINT32)
      && (c.sessionId != s.sessionId ==> t == s)
  {
    DecodePayload(c.sessionId, c.index, c.data);
  }
}
