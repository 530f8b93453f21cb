/**
 The artifact download relay: chunks are read from a node one by one, hashed, and written to the client one chunk late, so
 that the last bytes leave only after the digest of everything has been checked.
 */
module ArtifactRelay {
  import opened Names
  import opened Wrappers

  type Byte = n: nat | n < 256

  const MAX_ARTIFACT_BYTES := 512 * 1024 * 1024

  datatype Chunk = Chunk(
    artifact: string, filename: string, sha: string, expires: int, size: int, offset: int, nextOffset: int,
    payload: string, eof: bool)

  /** maxChunk: the chunk size of the node protocol. decode: base64. digest: the lower-case hex SHA-256. */
  datatype Setup = Setup(maxChunk: int, decode: string -> Option<seq<Byte>>, digest: seq<Byte> -> string)

  /** What the signed URL names. */
  datatype Wanted = Wanted(artifact: string, filename: string, expires: int)

  /**
   The two sides the relay talks to. node: the answer to the k-th request, at an offset; None is a failed read. client: how
   many bytes of the k-th write are taken before the connection breaks; None is a write that succeeds.
   */
  datatype Peers = Peers(node: (nat, int) -> Option<Chunk>, client: nat -> Option<nat>)

  datatype Ending = Refused | Completed | Aborted | LimitHit | ClientGone

  function LowerChar(c: char): char { if 'A' <= c <= 'Z' then (c as int + 32) as char else c }

  function Lower(s: string): (r: string)
    ensures |r| == |s|
  {
    seq(|s|, i requires 0 <= i < |s| => LowerChar(s[i]))
  }

  predicate HexChar(c: char) { '0' <= c <= '9' || 'a' <= c <= 'f' || 'A' <= c <= 'F' }

  predicate ValidSha(s: string) { |s| == 64 && forall i :: 0 <= i < |s| ==> HexChar(s[i]) }

  predicate ValidChunk(w: Wanted, c: Chunk, sha: string, offset: int, metadataOnly: bool) {
    var own := Lower(Trim(c.sha));
    c.artifact == w.artifact && c.filename == w.filename && ValidSha(own) && c.expires == w.expires &&
    (Trim(sha) != "" ==> own == Lower(Trim(sha))) &&
    0 <= c.size && c.offset == offset && c.offset <= c.nextOffset <= c.size &&
    (metadataOnly || c.eof || c.offset < c.nextOffset) &&
    (metadataOnly || (c.eof <==> c.nextOffset == c.size)) &&
    (metadataOnly ==> c.payload == "")
  }

  function ChunkData(setup: Setup, c: Chunk, offset: int): Option<seq<Byte>> {
    match setup.decode(c.payload)
    case None => None
    case Some(data) => if |data| > setup.maxChunk || c.nextOffset != offset + |data| then None else Some(data)
  }

  function MaxRequests(setup: Setup): int
    requires 0 < setup.maxChunk
  {
    (MAX_ARTIFACT_BYTES + setup.maxChunk - 1) / setup.maxChunk
  }

  // ------------------------------------------------------------------ what the node sent

  function Join(parts: seq<seq<Byte>>): seq<Byte> {
    if parts == [] then [] else Join(parts[..|parts| - 1]) + parts[|parts| - 1]
  }

  lemma JoinMore(parts: seq<seq<Byte>>, part: seq<Byte>)
    ensures Join(parts + [part]) == Join(parts) + part
  {
    assert (parts + [part])[..|parts|] == parts;
  }

  /** Chunks of full size. */
  predicate AllFull(setup: Setup, parts: seq<seq<Byte>>) {
    forall i :: 0 <= i < |parts| ==> |parts[i]| == setup.maxChunk
  }

  lemma {:induction false} FullLength(setup: Setup, parts: seq<seq<Byte>>)
    requires AllFull(setup, parts)
    ensures |Join(parts)| == |parts| * setup.maxChunk
    decreases |parts|
  {
    if parts != [] {
      var rest := parts[..|parts| - 1];
      assert AllFull(setup, rest);
      FullLength(setup, rest);
      assert |parts| * setup.maxChunk == |rest| * setup.maxChunk + setup.maxChunk;
    }
  }

  /** As many full chunks as there are requests make up the largest artifact. */
  lemma EnoughRequests(setup: Setup, n: nat)
    requires 0 < setup.maxChunk && MaxRequests(setup) <= n
    ensures MAX_ARTIFACT_BYTES <= n * setup.maxChunk
  {
    var (m, q) := (setup.maxChunk, MaxRequests(setup));
    var total := MAX_ARTIFACT_BYTES + m - 1;
    assert total == q * m + total % m;
    assert q * m <= n * m;
  }

  /** A node that serves this content in full-size chunks, with the right metadata. */
  ghost predicate Serves(setup: Setup, peers: Peers, w: Wanted, content: seq<Byte>) {
    forall k: nat, offset: nat :: offset <= |content| ==> GoodAnswer(setup, peers.node(k, offset), w, content, offset)
  }

  predicate GoodAnswer(setup: Setup, answer: Option<Chunk>, w: Wanted, content: seq<Byte>, offset: nat)
    requires offset <= |content|
  {
    answer.Some? &&
    var c := answer.value;
    var end := if offset + setup.maxChunk < |content| then offset + setup.maxChunk else |content|;
    offset <= end && c.artifact == w.artifact && c.filename == w.filename && c.expires == w.expires && Trimmed(c.sha) &&
    Lower(c.sha) == setup.digest(content) && ValidSha(setup.digest(content)) && c.size == |content| && c.offset == offset &&
    c.nextOffset == end && setup.decode(c.payload) == Some(content[offset..end]) && (c.eof <==> end == |content|)
  }

  /** The first answer decides whether anything is sent to the client. */
  predicate Announces(setup: Setup, peers: Peers, w: Wanted) {
    peers.node(0, 0).Some? &&
    var first := peers.node(0, 0).value;
    ValidChunk(w, first, "", 0, false) && first.size <= MAX_ARTIFACT_BYTES && ChunkData(setup, first, 0).Some?
  }

  ghost predicate ClientStays(peers: Peers) { forall k: nat :: peers.client(k).None? }

  /** What a write puts on the wire. */
  function Taken(peers: Peers, k: nat, data: seq<Byte>): (r: seq<Byte>)
    ensures r <= data
  {
    match peers.client(k)
    case None => data
    case Some(n) => if n < |data| then data[..n] else data
  }

  predicate Whole(peers: Peers, k: nat, data: seq<Byte>) { peers.client(k).None? || peers.client(k).value >= |data| }

  /** The part of the loop state that a node serving content determines. */
  ghost predicate OnTrack(setup: Setup, content: seq<Byte>, chunk: Chunk, offset: int, received: seq<Byte>) {
    0 <= offset <= |content| && received == content[..offset] && chunk.size == |content| && (chunk.eof <==> offset == |content|)
  }

  lemma GoodChunk(setup: Setup, peers: Peers, w: Wanted, content: seq<Byte>, sha: string, k: nat, offset: nat)
    requires 0 < setup.maxChunk && Serves(setup, peers, w, content) && offset <= |content|
    requires offset < |content| || offset == 0
    requires sha == "" || (Trimmed(sha) && Lower(sha) == setup.digest(content))
    ensures var answer := peers.node(k, offset);
      answer.Some? && ValidChunk(w, answer.value, sha, offset, false) && ChunkData(setup, answer.value, offset).Some? &&
      answer.value.nextOffset <= |content| &&
      content[..offset] + ChunkData(setup, answer.value, offset).value == content[..answer.value.nextOffset] &&
      OnTrack(setup, content, answer.value, answer.value.nextOffset, content[..answer.value.nextOffset]) &&
      Trimmed(answer.value.sha) && Lower(answer.value.sha) == setup.digest(content) &&
      (!answer.value.eof ==> |ChunkData(setup, answer.value, offset).value| == setup.maxChunk)
  {
    assert GoodAnswer(setup, peers.node(k, offset), w, content, offset);
    var c := peers.node(k, offset).value;
    assert content[..offset] + content[offset..c.nextOffset] == content[..c.nextOffset];
    if sha != "" { assert Trim(sha) == sha; }
    assert Trim("") == "";
  }

  /** A later answer that continues the download at an offset. */
  predicate Continues(setup: Setup, w: Wanted, first: Chunk, c: Chunk, offset: int) {
    c.size == first.size && ValidChunk(w, c, first.sha, offset, false) && ChunkData(setup, c, offset).Some?
  }

  /** Between two iterations: everything received but the pending chunk has been written. */
  ghost predicate Flow(
    first: Chunk, chunk: Chunk, offset: int, pending: seq<Byte>, written: seq<Byte>, parts: seq<seq<Byte>>)
  {
    |Join(parts)| == offset && written + pending == Join(parts) && offset <= first.size &&
    (chunk.eof <==> offset == first.size) && (pending != [] || first.size == 0)
  }

  lemma FlowOn(setup: Setup, w: Wanted, first: Chunk, chunk: Chunk, offset: int, pending: seq<Byte>, written: seq<Byte>,
               parts: seq<seq<Byte>>, next: Chunk)
    requires Flow(first, chunk, offset, pending, written, parts) && !chunk.eof && Continues(setup, w, first, next, offset)
    ensures var data := ChunkData(setup, next, offset).value;
      offset < next.nextOffset && Flow(first, next, next.nextOffset, data, written + pending, parts + [data])
  {
    JoinMore(parts, ChunkData(setup, next, offset).value);
  }

  ghost predicate Good(setup: Setup, content: seq<Byte>, first: Chunk, chunk: Chunk, offset: int, parts: seq<seq<Byte>>) {
    OnTrack(setup, content, chunk, offset, Join(parts)) && first.size == |content| && Trimmed(first.sha) &&
    Lower(first.sha) == setup.digest(content) && (chunk.eof || AllFull(setup, parts))
  }

  lemma GoodOn(setup: Setup, peers: Peers, w: Wanted, content: seq<Byte>, first: Chunk, chunk: Chunk, offset: int,
               parts: seq<seq<Byte>>, k: nat)
    requires 0 < setup.maxChunk && Serves(setup, peers, w, content) && Good(setup, content, first, chunk, offset, parts) && !chunk.eof
    ensures peers.node(k, offset).Some? && Continues(setup, w, first, peers.node(k, offset).value, offset)
    ensures var next := peers.node(k, offset).value;
      Good(setup, content, first, next, next.nextOffset, parts + [ChunkData(setup, next, offset).value])
  {
    GoodChunk(setup, peers, w, content, first.sha, k, offset);
    JoinMore(parts, ChunkData(setup, peers.node(k, offset).value, offset).value);
  }

  lemma GoodStart(setup: Setup, peers: Peers, w: Wanted, content: seq<Byte>)
    requires 0 < setup.maxChunk && Serves(setup, peers, w, content) && |content| <= MAX_ARTIFACT_BYTES
    ensures Announces(setup, peers, w)
    ensures var first := peers.node(0, 0).value;
      Good(setup, content, first, first, first.nextOffset, [ChunkData(setup, first, 0).value])
  {
    GoodChunk(setup, peers, w, content, "", 0, 0);
    JoinMore([], ChunkData(setup, peers.node(0, 0).value, 0).value);
    assert [] + [ChunkData(setup, peers.node(0, 0).value, 0).value] == [ChunkData(setup, peers.node(0, 0).value, 0).value];
    assert content[..0] == [];
  }

  lemma FlowStart(setup: Setup, peers: Peers, w: Wanted)
    requires Announces(setup, peers, w)
    ensures var first := peers.node(0, 0).value;
      var data := ChunkData(setup, first, 0).value;
      Flow(first, first, first.nextOffset, data, [], [data])
  {
    var data := ChunkData(setup, peers.node(0, 0).value, 0).value;
    JoinMore([], data);
    assert [] + [data] == [data];
  }

  /** A read that fails, or an answer that does not continue the download, gives None. */
  method ReadNext(setup: Setup, peers: Peers, w: Wanted, first: Chunk, k: nat, offset: int)
    returns (next: Option<(Chunk, seq<Byte>)>)
    ensures next.Some? <==> peers.node(k, offset).Some? && Continues(setup, w, first, peers.node(k, offset).value, offset)
    ensures next.Some? ==>
      next.value.0 == peers.node(k, offset).value && Some(next.value.1) == ChunkData(setup, next.value.0, offset)
  {
    var answer := peers.node(k, offset);
    if answer.None? { return None; }
    var chunk := answer.value;
    if chunk.size != first.size { return None; }
    if !ValidChunk(w, chunk, first.sha, offset, false) { return None; }
    var data := ChunkData(setup, chunk, offset);
    if data.None? { return None; }
    return Some((chunk, data.value));
  }

  lemma LimitNeedsShortChunk(setup: Setup, parts: seq<seq<Byte>>, size: int)
    requires 0 < setup.maxChunk && MaxRequests(setup) <= |parts| && |Join(parts)| < size <= MAX_ARTIFACT_BYTES
    ensures !AllFull(setup, parts)
  {
    if AllFull(setup, parts) {
      FullLength(setup, parts);
      EnoughRequests(setup, |parts|);
    }
  }

  // ------------------------------------------------------------------ how a download ends

  /** The k-th part is the data of the node's answer to the k-th request, asked for where the parts before it end. */
  ghost predicate SentPart(setup: Setup, peers: Peers, w: Wanted, parts: seq<seq<Byte>>, k: nat)
    requires k < |parts| && peers.node(0, 0).Some?
  {
    var (offset, first) := (|Join(parts[..k])|, peers.node(0, 0).value);
    peers.node(k, offset).Some? && ChunkData(setup, peers.node(k, offset).value, offset) == Some(parts[k]) &&
    (k > 0 ==> Continues(setup, w, first, peers.node(k, offset).value, offset)) &&
    (k < |parts| - 1 ==> !peers.node(k, offset).value.eof)
  }

  /** The parts are what the node sent, one answer after the other, and the last answer is this one. */
  ghost predicate Sent(setup: Setup, peers: Peers, w: Wanted, parts: seq<seq<Byte>>, last: Chunk)
    requires peers.node(0, 0).Some?
  {
    parts != [] && (forall k: nat :: k < |parts| ==> SentPart(setup, peers, w, parts, k)) &&
    peers.node(|parts| - 1, |Join(parts[..|parts| - 1])|) == Some(last)
  }

  /** All parts but the last were written whole. */
  ghost predicate WrittenSoFar(peers: Peers, parts: seq<seq<Byte>>) {
    forall k: nat :: k < |parts| - 1 ==> Whole(peers, k, parts[k])
  }

  predicate NextContinues(setup: Setup, peers: Peers, w: Wanted, parts: seq<seq<Byte>>)
    requires peers.node(0, 0).Some?
  {
    var answer := peers.node(|parts|, |Join(parts)|);
    answer.Some? && Continues(setup, w, peers.node(0, 0).value, answer.value, |Join(parts)|)
  }

  predicate DigestMatches(setup: Setup, peers: Peers, parts: seq<seq<Byte>>)
    requires peers.node(0, 0).Some?
  {
    setup.digest(Join(parts)) == Lower(peers.node(0, 0).value.sha)
  }

  /** The download may go on, or end well, as far as the node is concerned. */
  predicate NodeDelivers(setup: Setup, peers: Peers, w: Wanted, parts: seq<seq<Byte>>, last: Chunk)
    requires 0 < setup.maxChunk && peers.node(0, 0).Some?
  {
    if last.eof then DigestMatches(setup, peers, parts)
    else |parts| < MaxRequests(setup) && NextContinues(setup, peers, w, parts)
  }

  /** The ending that the last answer, the next one and the last write call for, and the bytes that are then on the wire. */
  predicate Ends(
    setup: Setup, peers: Peers, w: Wanted, ending: Ending, written: seq<Byte>, parts: seq<seq<Byte>>, last: Chunk)
    requires 0 < setup.maxChunk && peers.node(0, 0).Some? && parts != []
  {
    var (n, shown) := (|parts| - 1, Join(parts[..|parts| - 1]));
    match ending
    case Refused => false
    case Completed => last.eof && DigestMatches(setup, peers, parts) && Whole(peers, n, parts[n]) && written == Join(parts)
    case LimitHit => !last.eof && |parts| >= MaxRequests(setup) && written == shown
    case Aborted =>
      written == shown &&
      (if last.eof then !DigestMatches(setup, peers, parts)
       else |parts| < MaxRequests(setup) && !NextContinues(setup, peers, w, parts))
    case ClientGone =>
      NodeDelivers(setup, peers, w, parts, last) && !Whole(peers, n, parts[n]) && written == shown + Taken(peers, n, parts[n])
  }

  /** What the node sent and the client took makes the ending and the bytes on the wire what they are. */
  ghost predicate Explained(
    setup: Setup, peers: Peers, w: Wanted, ending: Ending, written: seq<Byte>, parts: seq<seq<Byte>>, last: Chunk)
    requires 0 < setup.maxChunk && peers.node(0, 0).Some?
  {
    Sent(setup, peers, w, parts, last) && WrittenSoFar(peers, parts) && |parts| <= MaxRequests(setup) &&
    Ends(setup, peers, w, ending, written, parts, last)
  }

  lemma JoinDrop(parts: seq<seq<Byte>>)
    requires parts != []
    ensures Join(parts) == Join(parts[..|parts| - 1]) + parts[|parts| - 1]
  {
  }

  lemma SentFirst(setup: Setup, peers: Peers, w: Wanted)
    requires Announces(setup, peers, w)
    ensures var first := peers.node(0, 0).value; Sent(setup, peers, w, [ChunkData(setup, first, 0).value], first)
  {
    var parts := [ChunkData(setup, peers.node(0, 0).value, 0).value];
    assert parts[..0] == [];
    assert SentPart(setup, peers, w, parts, 0);
  }

  lemma SentPartStays(setup: Setup, peers: Peers, w: Wanted, parts: seq<seq<Byte>>, last: Chunk, more: seq<Byte>, k: nat)
    requires peers.node(0, 0).Some? && Sent(setup, peers, w, parts, last) && !last.eof && k < |parts|
    ensures SentPart(setup, peers, w, parts + [more], k)
  {
    assert (parts + [more])[..k] == parts[..k];
    assert SentPart(setup, peers, w, parts, k);
  }

  lemma SentMore(setup: Setup, peers: Peers, w: Wanted, parts: seq<seq<Byte>>, last: Chunk, next: Chunk)
    requires peers.node(0, 0).Some? && Sent(setup, peers, w, parts, last) && !last.eof
    requires peers.node(|parts|, |Join(parts)|) == Some(next)
    requires Continues(setup, w, peers.node(0, 0).value, next, |Join(parts)|)
    ensures Sent(setup, peers, w, parts + [ChunkData(setup, next, |Join(parts)|).value], next)
  {
    var data := ChunkData(setup, next, |Join(parts)|).value;
    var more := parts + [data];
    assert more[..|parts|] == parts;
    assert SentPart(setup, peers, w, more, |parts|);
    forall k: nat | k < |more| ensures SentPart(setup, peers, w, more, k) {
      if k < |parts| { SentPartStays(setup, peers, w, parts, last, data, k); }
    }
  }

  /** Between two iterations. */
  ghost predicate Streaming(
    setup: Setup, peers: Peers, w: Wanted, chunk: Chunk, offset: int, pending: seq<Byte>, written: seq<Byte>, parts: seq<seq<Byte>>)
    requires 0 < setup.maxChunk && peers.node(0, 0).Some?
  {
    Flow(peers.node(0, 0).value, chunk, offset, pending, written, parts) && Sent(setup, peers, w, parts, chunk) &&
    WrittenSoFar(peers, parts) && |parts| <= MaxRequests(setup) &&
    pending == parts[|parts| - 1] && written == Join(parts[..|parts| - 1])
  }

  lemma StreamOn(setup: Setup, peers: Peers, w: Wanted, chunk: Chunk, offset: int, pending: seq<Byte>, written: seq<Byte>,
                 parts: seq<seq<Byte>>, next: Chunk)
    requires 0 < setup.maxChunk && peers.node(0, 0).Some? && Streaming(setup, peers, w, chunk, offset, pending, written, parts)
    requires !chunk.eof && |parts| < MaxRequests(setup) && peers.node(|parts|, offset) == Some(next)
    requires Continues(setup, w, peers.node(0, 0).value, next, offset) && Whole(peers, |parts| - 1, pending)
    ensures var data := ChunkData(setup, next, offset).value;
      offset < next.nextOffset && Join(parts + [data]) == Join(parts) + data &&
      Streaming(setup, peers, w, next, next.nextOffset, data, written + pending, parts + [data])
  {
    var data := ChunkData(setup, next, offset).value;
    FlowOn(setup, w, peers.node(0, 0).value, chunk, offset, pending, written, parts, next);
    SentMore(setup, peers, w, parts, chunk, next);
    JoinMore(parts, data);
    JoinDrop(parts);
    var more := parts + [data];
    assert more[..|more| - 1] == parts;
    forall k: nat | k < |more| - 1 ensures Whole(peers, k, more[k]) { if k < |parts| - 1 { assert Whole(peers, k, parts[k]); } }
  }

  lemma StreamStart(setup: Setup, peers: Peers, w: Wanted)
    requires 0 < setup.maxChunk && Announces(setup, peers, w)
    ensures var first := peers.node(0, 0).value;
      var data := ChunkData(setup, first, 0).value;
      Join([data]) == data && Streaming(setup, peers, w, first, first.nextOffset, data, [], [data])
  {
    FlowStart(setup, peers, w);
    SentFirst(setup, peers, w);
    assert [ChunkData(setup, peers.node(0, 0).value, 0).value][..0] == [];
  }

  // ------------------------------------------------------------------ the ending is determined

  /** Two accounts of a download agree part by part, as far as both go. */
  lemma {:induction false} SamePrefix(
    setup: Setup, peers: Peers, w: Wanted, xs: seq<seq<Byte>>, x: Chunk, ys: seq<seq<Byte>>, y: Chunk, n: nat)
    requires peers.node(0, 0).Some? && Sent(setup, peers, w, xs, x) && Sent(setup, peers, w, ys, y) && n <= |xs| && n <= |ys|
    ensures xs[..n] == ys[..n]
  {
    if n > 0 {
      SamePrefix(setup, peers, w, xs, x, ys, y, n - 1);
      assert SentPart(setup, peers, w, xs, n - 1) && SentPart(setup, peers, w, ys, n - 1);
      assert xs[..n] == xs[..n - 1] + [xs[n - 1]] && ys[..n] == ys[..n - 1] + [ys[n - 1]];
    }
  }

  /** Where one account goes on, the other one had no reason to end. */
  lemma GoesOn(setup: Setup, peers: Peers, w: Wanted, xs: seq<seq<Byte>>, x: Chunk, ys: seq<seq<Byte>>, y: Chunk)
    requires 0 < setup.maxChunk && peers.node(0, 0).Some? && Sent(setup, peers, w, xs, x) && Sent(setup, peers, w, ys, y)
    requires WrittenSoFar(peers, ys) && |xs| < |ys| <= MaxRequests(setup)
    ensures !x.eof && NextContinues(setup, peers, w, xs) && Whole(peers, |xs| - 1, xs[|xs| - 1])
  {
    var n := |xs|;
    SamePrefix(setup, peers, w, xs, x, ys, y, n);
    assert xs == ys[..n] && xs[..n - 1] == ys[..n - 1];
    assert SentPart(setup, peers, w, ys, n - 1) && SentPart(setup, peers, w, ys, n);
    assert ys[n - 1] == xs[n - 1] && Whole(peers, n - 1, ys[n - 1]);
  }

  lemma NoReasonToEnd(
    setup: Setup, peers: Peers, w: Wanted, ending: Ending, written: seq<Byte>, xs: seq<seq<Byte>>, x: Chunk,
    ys: seq<seq<Byte>>, y: Chunk)
    requires 0 < setup.maxChunk && peers.node(0, 0).Some? && Explained(setup, peers, w, ending, written, xs, x)
    requires Sent(setup, peers, w, ys, y) && WrittenSoFar(peers, ys) && |ys| <= MaxRequests(setup)
    ensures |ys| <= |xs|
  {
    if |xs| < |ys| { GoesOn(setup, peers, w, xs, x, ys, y); }
  }

  /** What the node answers and the client takes determine the ending, the bytes on the wire and the parts. */
  lemma EndingDetermined(
    setup: Setup, peers: Peers, w: Wanted, one: Ending, sent: seq<Byte>, xs: seq<seq<Byte>>, x: Chunk,
    other: Ending, sent': seq<Byte>, ys: seq<seq<Byte>>, y: Chunk)
    requires 0 < setup.maxChunk && peers.node(0, 0).Some?
    requires Explained(setup, peers, w, one, sent, xs, x) && Explained(setup, peers, w, other, sent', ys, y)
    ensures one == other && sent == sent' && xs == ys && x == y
  {
    NoReasonToEnd(setup, peers, w, one, sent, xs, x, ys, y);
    NoReasonToEnd(setup, peers, w, other, sent', ys, y, xs, x);
    SamePrefix(setup, peers, w, xs, x, ys, y, |xs|);
    assert xs == xs[..|xs|] && ys == ys[..|xs|];
  }

  // ------------------------------------------------------------------ what an account means for the client

  /** The parts end where the last answer says, and reach the announced size exactly with its end marker. */
  lemma SentEnd(setup: Setup, peers: Peers, w: Wanted, parts: seq<seq<Byte>>, last: Chunk)
    requires Announces(setup, peers, w) && Sent(setup, peers, w, parts, last)
    ensures var size := peers.node(0, 0).value.size;
      |Join(parts)| == last.nextOffset <= size <= MAX_ARTIFACT_BYTES && (last.eof <==> |Join(parts)| == size) &&
      (|Join(parts[..|parts| - 1])| < size || size == 0)
  {
    var n := |parts| - 1;
    assert SentPart(setup, peers, w, parts, n);
    JoinDrop(parts);
    if n == 0 {
      assert parts[..0] == [];
    } else {
      assert SentPart(setup, peers, w, parts, n - 1);
      JoinDrop(parts[..n]);
      assert parts[..n][..n - 1] == parts[..n - 1];
      if n == 1 { assert parts[..0] == []; }
    }
  }

  /** The bytes on the wire, given where the parts end. */
  lemma EndsShort(
    setup: Setup, peers: Peers, w: Wanted, ending: Ending, written: seq<Byte>, parts: seq<seq<Byte>>, last: Chunk, size: int)
    requires 0 < setup.maxChunk && peers.node(0, 0).Some? && parts != [] && Ends(setup, peers, w, ending, written, parts, last)
    requires |Join(parts)| <= size && (last.eof <==> |Join(parts)| == size)
    requires |Join(parts[..|parts| - 1])| < size || size == 0
    ensures written <= Join(parts)
    ensures ending.Completed? ==> written == Join(parts) && |written| == size
    ensures !ending.Completed? ==> |written| < size || (written == [] && size == 0)
  {
    var n := |parts| - 1;
    JoinDrop(parts);
    if ending.ClientGone? {
      BrokenWrite(peers, n, Join(parts[..n]), parts[n]);
    } else if !ending.Completed? {
      PrefixOf(Join(parts[..n]), parts[n]);
    }
  }

  lemma PrefixOf(shown: seq<Byte>, part: seq<Byte>)
    ensures shown <= shown + part
  {
  }

  /** A write that is not taken whole leaves less than the part on the wire. */
  lemma BrokenWrite(peers: Peers, k: nat, shown: seq<Byte>, part: seq<Byte>)
    requires !Whole(peers, k, part)
    ensures shown + Taken(peers, k, part) <= shown + part && |shown + Taken(peers, k, part)| < |shown + part|
  {
    var taken := Taken(peers, k, part);
    assert part == taken + part[|taken|..];
    assert shown + part == (shown + taken) + part[|taken|..];
  }

  /**
   Main result on the relay: normal completion delivers exactly the announced bytes with the announced digest; any other ending
   delivers a strict prefix of what the node sent, or nothing when nothing was announced to come; and the request limit is never the
   reason when all chunks are full.
   */
  lemma ExplainedMeans(
    setup: Setup, peers: Peers, w: Wanted, ending: Ending, written: seq<Byte>, parts: seq<seq<Byte>>, last: Chunk)
    requires 0 < setup.maxChunk && Announces(setup, peers, w) && Explained(setup, peers, w, ending, written, parts, last)
    ensures var first := peers.node(0, 0).value;
      written <= Join(parts) && |Join(parts)| <= first.size &&
      (ending.Completed? ==> written == Join(parts) && |written| == first.size && setup.digest(written) == Lower(first.sha)) &&
      (!ending.Completed? ==> |written| < first.size || (written == [] && first.size == 0)) &&
      (ending.LimitHit? ==> !AllFull(setup, parts))
  {
    var size := peers.node(0, 0).value.size;
    SentEnd(setup, peers, w, parts, last);
    EndsShort(setup, peers, w, ending, written, parts, last, size);
    if ending.LimitHit? { LimitNeedsShortChunk(setup, parts, size); }
  }

  /**
   An empty artifact comes in one answer, and is aborted, with nothing missing, exactly when the announced digest is not the one of
   no bytes. This is the only way for an ending other than Completed not to leave a strict prefix.
   */
  lemma EmptyAborts(setup: Setup, peers: Peers, w: Wanted)
    requires 0 < setup.maxChunk && Announces(setup, peers, w) && peers.node(0, 0).value.size == 0
    ensures var first := peers.node(0, 0).value;
      Explained(setup, peers, w, Aborted, [], [[]], first) <==> setup.digest([]) != Lower(first.sha)
  {
    var first := peers.node(0, 0).value;
    SentFirst(setup, peers, w);
    assert ChunkData(setup, first, 0) == Some([]);
    var parts: seq<seq<Byte>> := [[]];
    assert parts[..0] == [] && Join(parts) == [];
    assert Sent(setup, peers, w, parts, first) && WrittenSoFar(peers, parts) && |parts| <= MaxRequests(setup);
    assert Ends(setup, peers, w, Aborted, [], parts, first) <==> setup.digest([]) != Lower(first.sha);
  }

  /** Whatever the digest function is, a node that announces no bytes under any other digest makes such a download. */
  lemma EmptyAbortExample(setup: Setup, sha: string)
    requires 0 < setup.maxChunk && setup.decode("") == Some([]) && ValidSha(sha) && Lower(sha) != setup.digest([])
    ensures exists peers, w, last ::
      Announces(setup, peers, w) && peers.node(0, 0) == Some(last) && Explained(setup, peers, w, Aborted, [], [[]], last)
  {
    var chunk := Chunk("id", "name", sha, 9, 0, 0, 0, "", true);
    var peers := Peers((_, _) => Some(chunk), _ => None);
    var w := Wanted("id", "name", 9);
    assert Trimmed(sha);
    assert Trim(sha) == sha && Trim("") == "";
    LowerValid(sha);
    assert ValidChunk(w, chunk, "", 0, false);
    EmptyAborts(setup, peers, w);
  }

  lemma LowerValid(sha: string)
    requires ValidSha(sha)
    ensures ValidSha(Lower(sha))
  {
  }

  /**
   The request: refused exactly when the first answer may not be announced. Otherwise parts is what the node sent, one answer after
   the other, and ending and bytes are the ones that the node's answers and the client call for; a good node is relayed whole.
   */
  method ServePublicArtifact(setup: Setup, peers: Peers, w: Wanted, ghost content: seq<Byte>)
    returns (ending: Ending, written: seq<Byte>, ghost parts: seq<seq<Byte>>, ghost last: Chunk)
    requires 0 < setup.maxChunk
    ensures ending.Refused? <==> !Announces(setup, peers, w)
    ensures ending.Refused? ==> written == []
    ensures !ending.Refused? ==> peers.node(0, 0).Some? && Explained(setup, peers, w, ending, written, parts, last)
    ensures Serves(setup, peers, w, content) && |content| <= MAX_ARTIFACT_BYTES && ClientStays(peers) ==>
      ending.Completed? && written == content
  {
    if Serves(setup, peers, w, content) && |content| <= MAX_ARTIFACT_BYTES { GoodStart(setup, peers, w, content); }
    var begun := ReadFirst(setup, peers, w);
    if begun.None? { return Refused, [], [], Chunk("", "", "", 0, 0, 0, 0, "", true); }
    ending, written, parts, last := Stream(setup, peers, w, begun.value.0, begun.value.1, content);
  }

  /** The streaming loop, after the response headers are out. */
  method Stream(setup: Setup, peers: Peers, w: Wanted, first: Chunk, data0: seq<Byte>, ghost content: seq<Byte>)
    returns (ending: Ending, written: seq<Byte>, ghost parts: seq<seq<Byte>>, ghost last: Chunk)
    requires 0 < setup.maxChunk && Announces(setup, peers, w)
    requires first == peers.node(0, 0).value && ChunkData(setup, first, 0) == Some(data0)
    ensures Explained(setup, peers, w, ending, written, parts, last)
    ensures Serves(setup, peers, w, content) && |content| <= MAX_ARTIFACT_BYTES && ClientStays(peers) ==>
      ending.Completed? && written == content
  {
    ghost var good := Serves(setup, peers, w, content) && |content| <= MAX_ARTIFACT_BYTES;
    if good { GoodStart(setup, peers, w, content); }
    var hashed, pending := data0, data0;
    var offset := first.nextOffset;
    var chunk := first;
    var requests, writes := 1, 0;
    written, parts, last := [], [data0], first;
    StreamStart(setup, peers, w);
    while !chunk.eof
      invariant last == chunk && hashed == Join(parts) && requests == |parts| && writes == requests - 1
      invariant Streaming(setup, peers, w, chunk, offset, pending, written, parts)
      invariant good ==> Good(setup, content, first, chunk, offset, parts)
      decreases first.size - offset
    {
      if requests >= MaxRequests(setup) {
        if good { GoodFitsLimit(setup, content, first, chunk, offset, parts); }
        return LimitHit, written, parts, last;
      }
      if good { GoodOn(setup, peers, w, content, first, chunk, offset, parts, requests); }
      var next := ReadNext(setup, peers, w, first, requests, offset);
      requests := requests + 1;
      if next.None? { return Aborted, written, parts, last; }
      var data := next.value.1;
      hashed := hashed + data;
      var taken := Taken(peers, writes, pending);
      if !Whole(peers, writes, pending) { return ClientGone, written + taken, parts, last; }
      StreamOn(setup, peers, w, chunk, offset, pending, written, parts, next.value.0);
      written := written + taken;
      writes := writes + 1;
      parts := parts + [data];
      chunk, pending, offset := next.value.0, data, next.value.0.nextOffset;
      last := chunk;
    }
    if good { assert content[..offset] == content; }
    if offset != first.size || setup.digest(hashed) != Lower(first.sha) { return Aborted, written, parts, last; }
    var taken := Taken(peers, writes, pending);
    if !Whole(peers, writes, pending) { return ClientGone, written + taken, parts, last; }
    return Completed, written + taken, parts, last;
  }

  /** A good node is done before the request limit. */
  lemma GoodFitsLimit(setup: Setup, content: seq<Byte>, first: Chunk, chunk: Chunk, offset: int, parts: seq<seq<Byte>>)
    requires 0 < setup.maxChunk && |content| <= MAX_ARTIFACT_BYTES && Good(setup, content, first, chunk, offset, parts)
    requires |Join(parts)| == offset && MaxRequests(setup) <= |parts|
    ensures chunk.eof
  {
    if !chunk.eof { LimitNeedsShortChunk(setup, parts, |content|); }
  }

  /** The first answer, when it may be announced to the client. */
  method ReadFirst(setup: Setup, peers: Peers, w: Wanted) returns (first: Option<(Chunk, seq<Byte>)>)
    ensures first.Some? <==> Announces(setup, peers, w)
    ensures first.Some? ==>
      first.value.0 == peers.node(0, 0).value && Some(first.value.1) == ChunkData(setup, first.value.0, 0)
  {
    var answer := peers.node(0, 0);
    if answer.None? { return None; }
    if !ValidChunk(w, answer.value, "", 0, false) { return None; }
    if answer.value.size > MAX_ARTIFACT_BYTES { return None; }
    var data := ChunkData(setup, answer.value, 0);
    if data.None? { return None; }
    return Some((answer.value, data.value));
  }

  // ------------------------------------------------------------------ the answers that are used

  /** The answer is about the artifact, file and expiry of the signed URL, with a hexadecimal SHA-256. */
  predicate AboutWanted(w: Wanted, c: Chunk) {
    c.artifact == w.artifact && c.filename == w.filename && c.expires == w.expires &&
    |Trim(c.sha)| == 64 && forall i :: 0 <= i < 64 ==> HexChar(Trim(c.sha)[i])
  }

  /** It brings the bytes from this offset on, some unless it is the last, and is the last exactly when it reaches the size. */
  predicate Brings(setup: Setup, c: Chunk, offset: int) {
    c.offset == offset && 0 <= offset <= c.nextOffset <= c.size && (c.eof <==> c.nextOffset == c.size) &&
    (!c.eof ==> offset < c.nextOffset) && setup.decode(c.payload).Some? &&
    |setup.decode(c.payload).value| == c.nextOffset - offset <= setup.maxChunk
  }

  lemma LowerHex(c: char)
    ensures HexChar(LowerChar(c)) <==> HexChar(c)
  {
  }

  lemma ShaMeans(sha: string)
    ensures ValidSha(Lower(sha)) <==> |sha| == 64 && forall i :: 0 <= i < 64 ==> HexChar(sha[i])
  {
    var low := Lower(sha);
    forall i | 0 <= i < |sha| ensures HexChar(low[i]) <==> HexChar(sha[i]) { LowerHex(sha[i]); }
    if |sha| == 64 && ValidSha(low) { forall i | 0 <= i < 64 ensures HexChar(sha[i]) { assert HexChar(low[i]); } }
  }

  /** A download begins exactly with an answer about what is wanted, of at most 512 MiB, that brings the first bytes. */
  lemma AnnouncesExactly(setup: Setup, peers: Peers, w: Wanted)
    ensures Announces(setup, peers, w) <==>
      peers.node(0, 0).Some? && AboutWanted(w, peers.node(0, 0).value) && Brings(setup, peers.node(0, 0).value, 0) &&
      peers.node(0, 0).value.size <= 536_870_912
  {
    if peers.node(0, 0).Some? { ShaMeans(Trim(peers.node(0, 0).value.sha)); }
    assert Trim("") == "";
  }

  /** It goes on exactly with an answer that, besides, has size and digest of the first, and brings the next bytes. */
  lemma ContinuesExactly(setup: Setup, w: Wanted, first: Chunk, c: Chunk, offset: int)
    requires Trim(first.sha) != "" && 0 <= offset
    ensures Continues(setup, w, first, c, offset) <==>
      AboutWanted(w, c) && Brings(setup, c, offset) && c.size == first.size && Lower(Trim(c.sha)) == Lower(Trim(first.sha))
  {
    ShaMeans(Trim(c.sha));
  }

  /** Whatever is relayed: every part comes from an answer about the wanted artifact that brings the bytes where the parts before end. */
  lemma RelayedAnswers(
    setup: Setup, peers: Peers, w: Wanted, ending: Ending, written: seq<Byte>, parts: seq<seq<Byte>>, last: Chunk, k: nat)
    requires 0 < setup.maxChunk && Announces(setup, peers, w) && Explained(setup, peers, w, ending, written, parts, last) && k < |parts|
    ensures var (offset, first) := (|Join(parts[..k])|, peers.node(0, 0).value);
      peers.node(k, offset).Some? &&
      var c := peers.node(k, offset).value;
      AboutWanted(w, c) && Brings(setup, c, offset) && c.size == first.size <= 536_870_912 &&
      Lower(Trim(c.sha)) == Lower(Trim(first.sha)) && setup.decode(c.payload) == Some(parts[k])
  {
    var (offset, first) := (|Join(parts[..k])|, peers.node(0, 0).value);
    AnnouncesExactly(setup, peers, w);
    assert SentPart(setup, peers, w, parts, k);
    if k > 0 {
      assert Trim(first.sha) != "";
      ContinuesExactly(setup, w, first, peers.node(k, offset).value, offset);
    } else {
      assert parts[..0] == [];
    }
  }
}
