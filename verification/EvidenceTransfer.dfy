/** Cutting the text of one evidence page into small chunks and putting a set of
    received chunks together again, under the digest of the text. Strings are
    UTF-8 bytes; JSON text and SHA-256 are the functions of a `Codec`. */
module EvidenceTransfer {
  import opened Basics
  import Strings = Text
  import Utf8

  type Text = seq<Utf8.Byte>

  const EVIDENCE_VERSION: nat := 2
  const CHUNK_BYTES: nat := 32 * 1024
  const TRANSFER_BYTES: nat := 1152 * 1024
  const MAX_CHUNKS: nat := 37
  const I64_MAX: nat := 0x7FFF_FFFF_FFFF_FFFF

  const ACCOUNTING_VERSION: nat := 1

  /** The economics of one fully closed position. */
  datatype Accounting = Accounting(
    version: nat, provider: string, positionId: string, entryOrderId: string, currency: string,
    openedAt: int, closedAt: int, asOf: int, netPnl: real, commission: real, swap: real)

  datatype Observation = Observation(
    executionEpoch: nat, sequence: nat, checkpointRevision: nat, insightId: Text,
    closed: bool, entryOrderId: Option<string>, accounting: Option<Accounting>)

  /** `annotations` stands for the page's purely descriptive fields. */
  datatype Page = Page(
    schemaVersion: nat, sourceId: Text, strategyId: Text, accountId: Text,
    afterSequence: nat, throughSequence: nat, nextSequence: nat, hasMore: bool,
    observations: seq<Observation>, annotations: Text)

  datatype Chunk = Chunk(
    schemaVersion: nat, sourceId: Text, strategyId: Text, accountId: Text,
    afterSequence: nat, nextSequence: nat, transferId: Text, index: nat, count: nat, body: Text)

  datatype Codec = Codec(write: Page -> Text, read: Text -> Option<Page>, digest: Text -> Text)

  predicate Hex64(id: Text) {
    |id| == 64 && forall i :: 0 <= i < |id| ==> 0x30 <= id[i] <= 0x39 || 0x61 <= id[i] <= 0x66
  }

  /** This page is printed as text that reads back as the page, and every digest
      is sixty-four hex digits. No more is asked: no text can hold all reals. */
  ghost predicate Faithful(c: Codec, p: Page) {
    && c.read(c.write(p)) == Some(p) && Utf8.Valid(c.write(p)) && c.write(p) != []
    && (forall t :: Hex64(c.digest(t)))
  }

  /** Every page has such a codec. */
  lemma FaithfulIsMet(p: Page) returns (c: Codec)
    ensures Faithful(c, p)
  {
    var text: Text := [0x7B, 0x7D];
    var zeros: Text := seq(64, i => 0x30);
    c := Codec(_ => text, _ => Some(p), _ => zeros);
    assert text[1..] == [0x7D] && text[1..][1..] == [];
    assert Utf8.Valid(text[1..]);
  }

  // ----- admission of a page -----

  predicate Scoped(sourceId: Text, strategyId: Text, accountId: Text, after: nat, next: nat) {
    && 0 < |sourceId| <= 128 && 0 < |strategyId| <= 256 && 0 < |accountId| <= 256
    && after < next
  }

  predicate Bounded(page: Page) {
    && page.schemaVersion == EVIDENCE_VERSION
    && 0 < |page.observations| <= 128
    && Scoped(page.sourceId, page.strategyId, page.accountId, page.afterSequence, page.nextSequence)
    && page.nextSequence <= page.throughSequence <= I64_MAX
    && (page.hasMore <==> page.nextSequence != page.throughSequence)
  }

  predicate Named(s: string, max: nat) { Strings.Trim(s) != [] && Strings.ByteLen(s) <= max }

  /** The accounting record's own validation; real amounts are always finite. */
  predicate SoundAccounting(a: Accounting) {
    && a.version == ACCOUNTING_VERSION
    && Named(a.provider, 128) && Named(a.positionId, 128) && Named(a.entryOrderId, 128) && Named(a.currency, 32)
    && 0 < a.openedAt <= a.closedAt <= a.asOf
  }

  predicate ClosedOwner(o: Observation) {
    o.accounting.Some? ==>
      && SoundAccounting(o.accounting.value) && o.closed && o.entryOrderId.Some?
      && o.entryOrderId.value in {o.accounting.value.entryOrderId, o.accounting.value.positionId}
  }

  predicate Follows(previous: nat, next: nat, o: Observation) {
    && 0 < o.executionEpoch <= I64_MAX
    && previous < o.sequence <= next
    && 0 < o.checkpointRevision && o.insightId != []
    && ClosedOwner(o)
  }

  ghost function Previous(page: Page, i: nat): nat
    requires i <= |page.observations|
  {
    if i == 0 then page.afterSequence else page.observations[i - 1].sequence
  }

  ghost predicate InSequence(page: Page, i: nat)
    requires i < |page.observations|
  {
    Follows(Previous(page, i), page.nextSequence, page.observations[i])
  }

  /** Sequences increase from the page's start and end exactly at its next one. */
  ghost predicate WellSequenced(page: Page) {
    && (forall i :: 0 <= i < |page.observations| ==> InSequence(page, i))
    && Previous(page, |page.observations|) == page.nextSequence
  }

  ghost predicate Admitted(codec: Codec, page: Page) {
    Bounded(page) && WellSequenced(page) && |codec.write(page)| <= TRANSFER_BYTES
  }

  /** The page's JSON text, or a refusal. */
  method EncodedPage(codec: Codec, page: Page) returns (r: Result<Text, string>)
    ensures r.Ok? <==> Admitted(codec, page)
    ensures r.Ok? ==> r.value == codec.write(page)
  {
    if !Bounded(page) { return Err("invalid execution evidence transfer scope or boundary"); }
    var previous := page.afterSequence;
    for i := 0 to |page.observations|
      invariant previous == Previous(page, i)
      invariant forall k :: 0 <= k < i ==> InSequence(page, k)
    {
      assert InSequence(page, i) <==> Follows(previous, page.nextSequence, page.observations[i]);
      if !Follows(previous, page.nextSequence, page.observations[i]) {
        return Err("invalid execution evidence observation");
      }
      previous := page.observations[i].sequence;
    }
    if previous != page.nextSequence { return Err("incomplete execution evidence transfer"); }
    var json := codec.write(page);
    if |json| > TRANSFER_BYTES { return Err("execution evidence transfer exceeds byte limit"); }
    return Ok(json);
  }

  // ----- cutting -----

  function Join(bodies: seq<Text>): Text {
    if bodies == [] then [] else Join(bodies[..|bodies| - 1]) + bodies[|bodies| - 1]
  }

  lemma JoinAppend(bodies: seq<Text>, body: Text)
    ensures Join(bodies + [body]) == Join(bodies) + body
  {
    assert (bodies + [body])[..|bodies|] == bodies;
  }

  /** A piece is text of at most one chunk; only the last may be short. */
  predicate Piece(body: Text, last: bool) {
    && Utf8.Valid(body)
    && 0 < |body| <= CHUNK_BYTES
    && (last || CHUNK_BYTES - 3 <= |body|)
  }

  ghost predicate Cut(json: Text, bodies: seq<Text>) {
    && Join(bodies) == json
    && forall i :: 0 <= i < |bodies| ==> Piece(bodies[i], i == |bodies| - 1)
  }

  /** What full pieces hold at least, three boundary bytes lost on each. */
  lemma {:induction false} FullPieces(bodies: seq<Text>, least: nat)
    requires forall i :: 0 <= i < |bodies| ==> |bodies[i]| >= least
    ensures |Join(bodies)| >= least * |bodies|
    decreases |bodies|
  {
    if bodies != [] {
      var n := |bodies| - 1;
      FullPieces(bodies[..n], least);
      assert least * |bodies| == least * n + least;
    }
  }

  /** Thirty-seven chunks always suffice for an admitted text. */
  lemma ChunkBound(json: Text, bodies: seq<Text>)
    requires Cut(json, bodies) && |json| <= TRANSFER_BYTES
    ensures |bodies| <= MAX_CHUNKS
  {
    if bodies != [] {
      var n := |bodies| - 1;
      forall i | 0 <= i < n ensures |bodies[..n][i]| >= CHUNK_BYTES - 3 { assert Piece(bodies[i], i == n); }
      FullPieces(bodies[..n], CHUNK_BYTES - 3);
      assert Piece(bodies[n], true);
    }
  }

  /** The largest end not past one chunk at which the text may be cut. */
  method NextEnd(json: Text, start: nat) returns (end: nat)
    requires Utf8.Valid(json) && start < |json| && Utf8.Boundary(json, start)
    ensures start < end <= |json| && Utf8.Boundary(json, end)
    ensures Piece(json[start..end], end == |json|)
  {
    end := if start + CHUNK_BYTES < |json| then start + CHUNK_BYTES else |json|;
    ghost var furthest := end;
    var near := Utf8.BoundaryNear(json, end);
    while !(end == 0 || end == |json| || !Utf8.Continuation(json[end]))
      invariant near <= end <= furthest <= |json| && furthest <= near + 3
      invariant furthest == |json| ==> end == |json|
      decreases end
    {
      end := end - 1;
    }
    Utf8.CutAtBoundary(json, end);
    assert json[start..end] == json[..end][start..];
    assert Utf8.Boundary(json[..end], start);
    Utf8.CutAtBoundary(json[..end], start);
  }

  /** The chunking loop. */
  method Bodies(json: Text) returns (bodies: seq<Text>)
    requires Utf8.Valid(json)
    ensures Cut(json, bodies)
  {
    bodies := [];
    var start := 0;
    assert json[..0] == [];
    while start < |json|
      invariant start <= |json| && Utf8.Boundary(json, start) && Join(bodies) == json[..start]
      invariant forall i :: 0 <= i < |bodies| ==> Piece(bodies[i], i == |bodies| - 1 && start == |json|)
    {
      var end := NextEnd(json, start);
      JoinAppend(bodies, json[start..end]);
      assert json[..start] + json[start..end] == json[..end];
      bodies := bodies + [json[start..end]];
      start := end;
    }
    assert json[..|json|] == json;
  }

  predicate ValidChunk(c: Chunk) {
    && c.schemaVersion == EVIDENCE_VERSION
    && Scoped(c.sourceId, c.strategyId, c.accountId, c.afterSequence, c.nextSequence)
    && c.nextSequence <= I64_MAX
    && 0 < c.count <= MAX_CHUNKS && c.index < c.count
    && 0 < |c.body| <= CHUNK_BYTES
    && Hex64(c.transferId)
  }

  predicate SameEnvelope(a: Chunk, b: Chunk) {
    && a.sourceId == b.sourceId && a.strategyId == b.strategyId && a.accountId == b.accountId
    && a.afterSequence == b.afterSequence && a.nextSequence == b.nextSequence
    && a.transferId == b.transferId && a.count == b.count
  }

  function ChunkOf(codec: Codec, page: Page, bodies: seq<Text>, i: nat): Chunk
    requires i < |bodies|
  {
    Chunk(page.schemaVersion, page.sourceId, page.strategyId, page.accountId, page.afterSequence, page.nextSequence,
          codec.digest(codec.write(page)), i, |bodies|, bodies[i])
  }

  /** The chunks of a page under some cut of its text. */
  ghost predicate ChunksOf(codec: Codec, page: Page, bodies: seq<Text>, chunks: seq<Chunk>) {
    && Cut(codec.write(page), bodies) && |chunks| == |bodies|
    && forall i :: 0 <= i < |chunks| ==> chunks[i] == ChunkOf(codec, page, bodies, i)
  }

  /** Chunking succeeds exactly for admitted pages, with at most thirty-seven
      chunks, all valid. */
  method Chunks(codec: Codec, page: Page) returns (r: Result<seq<Chunk>, string>, ghost bodies: seq<Text>)
    requires Faithful(codec, page)
    ensures r.Ok? <==> Admitted(codec, page)
    ensures r.Ok? ==> 0 < |r.value| <= MAX_CHUNKS && ChunksOf(codec, page, bodies, r.value)
    ensures r.Ok? ==> forall i :: 0 <= i < |r.value| ==> ValidChunk(r.value[i])
  {
    bodies := [];
    var encoded := EncodedPage(codec, page);
    if encoded.Err? { return Err(encoded.error), bodies; }
    var pieces := Bodies(encoded.value);
    bodies := pieces;
    ChunkBound(encoded.value, pieces);
    var count := |pieces|;
    var id := codec.digest(encoded.value);
    var chunks := seq(count, i requires 0 <= i < count =>
      Chunk(page.schemaVersion, page.sourceId, page.strategyId, page.accountId, page.afterSequence,
            page.nextSequence, id, i, count, pieces[i]));
    forall i | 0 <= i < count ensures ValidChunk(chunks[i]) { assert Piece(pieces[i], i == count - 1); }
    r := if count > MAX_CHUNKS then Err("too many evidence chunks") else Ok(chunks);
  }

  // ----- the bound is tight -----

  lemma {:induction false} ValidConcat(a: Text, b: Text)
    requires Utf8.Valid(a) && Utf8.Valid(b)
    ensures Utf8.Valid(a + b)
    decreases |a|
  {
    if a == [] {
      assert a + b == b;
    } else {
      var w := Utf8.Width(a[0]);
      ValidConcat(a[w..], b);
      Dropped(a, b, w);
    }
  }

  lemma Dropped(a: Text, b: Text, w: nat)
    requires w <= |a|
    ensures (a + b)[w..] == a[w..] + b
    ensures forall i :: 0 <= i < |a| ==> (a + b)[i] == a[i]
  {
  }

  /** `n` euro signs, three bytes each. */
  function Euros(n: nat): (t: Text)
    ensures |t| == 3 * n
  {
    if n == 0 then [] else [0xE2, 0x82, 0xAC] + Euros(n - 1)
  }

  lemma {:induction false} EurosValid(n: nat)
    ensures Utf8.Valid(Euros(n))
  {
    if n > 0 {
      EurosValid(n - 1);
      assert Euros(n)[3..] == Euros(n - 1);
    }
  }

  lemma {:induction false} WholeEuros(t: Text, n: nat)
    requires Utf8.Valid(t) && t <= Euros(n)
    ensures |t| % 3 == 0
    decreases |t|
  {
    if t != [] {
      assert t[0] == Euros(n)[0] == 0xE2;
      assert Euros(n)[3..] == Euros(n - 1);
      assert t[3..] <= Euros(n)[3..];
      WholeEuros(t[3..], n - 1);
    }
  }

  lemma EuroPiece(prefix: Text, body: Text, n: nat)
    requires Utf8.Valid(prefix) && |prefix| % 3 == 0 && Utf8.Valid(body) && |body| <= CHUNK_BYTES
    requires prefix + body <= Euros(n)
    ensures Utf8.Valid(prefix + body) && |prefix + body| % 3 == 0 && |prefix + body| <= |prefix| + 32766
  {
    ValidConcat(prefix, body);
    WholeEuros(prefix + body, n);
  }

  /** No valid piece of this text is longer than 32766 bytes. */
  lemma {:induction false} EuroPieces(bodies: seq<Text>, n: nat)
    requires forall i :: 0 <= i < |bodies| ==> Utf8.Valid(bodies[i]) && |bodies[i]| <= CHUNK_BYTES
    requires Join(bodies) <= Euros(n)
    ensures Utf8.Valid(Join(bodies)) && |Join(bodies)| % 3 == 0 && |Join(bodies)| <= 32766 * |bodies|
    decreases |bodies|
  {
    if bodies != [] {
      var m := |bodies| - 1;
      Prefix(Join(bodies[..m]), bodies[m], Euros(n));
      EuroPieces(bodies[..m], n);
      EuroPiece(Join(bodies[..m]), bodies[m], n);
    }
  }

  lemma Prefix(a: Text, b: Text, c: Text)
    requires a + b <= c
    ensures a <= c
  {
  }

  /** A text within the limit that no cut fits into thirty-six chunks. */
  lemma ThirtySevenNeeded(bodies: seq<Text>)
    requires Join(bodies) == Euros(393216)
    requires forall i :: 0 <= i < |bodies| ==> Piece(bodies[i], true)
    ensures |Join(bodies)| == TRANSFER_BYTES && Utf8.Valid(Join(bodies)) && |bodies| >= MAX_CHUNKS
  {
    forall i | 0 <= i < |bodies| ensures Utf8.Valid(bodies[i]) && |bodies[i]| <= CHUNK_BYTES {
      assert Piece(bodies[i], true);
    }
    EuroPieces(bodies, 393216);
  }

  // ----- assembly -----

  /** What the receiver's map holds after these chunks. */
  ghost function PartsOf(chunks: seq<Chunk>): map<nat, Text> {
    if chunks == [] then map[] else
      var c := chunks[|chunks| - 1];
      PartsOf(chunks[..|chunks| - 1])[c.index := c.body]
  }

  /** Bytes held for the first `n` indices. */
  ghost function Weight(parts: map<nat, Text>, n: nat): nat {
    if n == 0 then 0 else Weight(parts, n - 1) + if n - 1 in parts then |parts[n - 1]| else 0
  }

  ghost function Joined(parts: map<nat, Text>, n: nat): Text
    requires forall i :: 0 <= i < n ==> i in parts
  {
    if n == 0 then [] else Joined(parts, n - 1) + parts[n - 1]
  }

  lemma {:induction false} WeightInsert(parts: map<nat, Text>, n: nat, k: nat, body: Text)
    requires k !in parts
    ensures Weight(parts[k := body], n) == Weight(parts, n) + if k < n then |body| else 0
  {
    if n > 0 { WeightInsert(parts, n - 1, k, body); }
  }

  lemma {:induction false} JoinedWeight(parts: map<nat, Text>, n: nat)
    requires forall i :: 0 <= i < n ==> i in parts
    ensures |Joined(parts, n)| == Weight(parts, n)
  {
    if n > 0 { JoinedWeight(parts, n - 1); }
  }

  ghost function Below(n: nat): (s: set<nat>)
    ensures |s| == n && forall i :: i in s <==> 0 <= i < n
  {
    if n == 0 then {} else Below(n - 1) + {n - 1}
  }

  /** As many indices below `n` as there are numbers below `n` leave no gap. */
  lemma NoGap(parts: map<nat, Text>, n: nat)
    requires forall i :: i in parts ==> i < n
    ensures |parts| == n <==> forall i :: 0 <= i < n ==> i in parts
  {
    assert parts.Keys <= Below(n) && |parts.Keys| == |parts|;
    if |parts| == n { SubsetFull(parts.Keys, Below(n)); }
    if forall i :: 0 <= i < n ==> i in parts { assert parts.Keys == Below(n); }
  }

  lemma SubsetFull(a: set<nat>, b: set<nat>)
    requires a <= b && |a| == |b|
    ensures a == b
  {
    assert b == a + (b - a) && |b| == |a| + |b - a|;
  }

  ghost predicate Compatible(a: Chunk, b: Chunk) {
    a.index == b.index ==> a.body == b.body
  }

  ghost predicate Agree(chunks: seq<Chunk>) {
    forall i, j {:trigger Compatible(chunks[i], chunks[j])} ::
      0 <= i < j < |chunks| ==> Compatible(chunks[i], chunks[j])
  }

  ghost predicate Fits(c: Chunk, first: Chunk) {
    ValidChunk(c) && SameEnvelope(c, first)
  }

  ghost predicate Uniform(chunks: seq<Chunk>) {
    forall i {:trigger Fits(chunks[i], chunks[0])} :: 0 <= i < |chunks| ==> Fits(chunks[i], chunks[0])
  }

  ghost predicate Has(chunks: seq<Chunk>, index: nat) {
    exists i :: 0 <= i < |chunks| && chunks[i].index == index
  }

  /** A full set: valid, of one transfer, without conflict or gap. */
  ghost predicate FullSet(chunks: seq<Chunk>) {
    && 0 < |chunks| <= 2 * MAX_CHUNKS
    && Uniform(chunks) && Agree(chunks)
    && forall k :: 0 <= k < chunks[0].count ==> Has(chunks, k)
  }

  ghost predicate Stored(parts: map<nat, Text>, c: Chunk) {
    c.index in parts && parts[c.index] == c.body
  }

  lemma {:induction false} PartsMeaning(chunks: seq<Chunk>)
    requires Agree(chunks)
    ensures forall i :: 0 <= i < |chunks| ==> Stored(PartsOf(chunks), chunks[i])
    ensures forall k :: k in PartsOf(chunks) <==> Has(chunks, k)
    decreases |chunks|
  {
    if chunks != [] {
      var n := |chunks| - 1;
      var rest := chunks[..n];
      AgreePrefix(chunks, n);
      PartsMeaning(rest);
      forall i | 0 <= i < n ensures Stored(PartsOf(chunks), chunks[i]) {
        assert Stored(PartsOf(rest), rest[i]) && Compatible(chunks[i], chunks[n]);
      }
      forall k ensures k in PartsOf(chunks) <==> Has(chunks, k) {
        if Has(rest, k) {
          var i :| 0 <= i < n && rest[i].index == k;
          assert chunks[i].index == k;
        }
        if k == chunks[n].index { assert Has(chunks, k); }
        if Has(chunks, k) && k != chunks[n].index {
          var i :| 0 <= i < |chunks| && chunks[i].index == k;
          assert rest[i].index == k;
        }
      }
    }
  }

  /** A joined text that keeps its envelope's promises. */
  ghost predicate Opens(codec: Codec, first: Chunk, json: Text, page: Page) {
    && codec.digest(json) == first.transferId
    && codec.read(json) == Some(page)
    && Admitted(codec, page)
    && page.sourceId == first.sourceId && page.strategyId == first.strategyId
    && page.accountId == first.accountId
    && page.afterSequence == first.afterSequence && page.nextSequence == first.nextSequence
  }

  /** Acceptance, exactly: a full set within the byte limit whose joined text has
      the announced digest and parses to an admitted page of the same envelope. */
  ghost predicate Accepted(codec: Codec, chunks: seq<Chunk>, page: Page) {
    && FullSet(chunks)
    && (forall i :: 0 <= i < chunks[0].count ==> i in PartsOf(chunks))
    && var json := Joined(PartsOf(chunks), chunks[0].count);
    && |json| <= TRANSFER_BYTES
    && Opens(codec, chunks[0], json, page)
  }

  lemma AgreePrefix(chunks: seq<Chunk>, i: nat)
    requires i <= |chunks| && Agree(chunks)
    ensures Agree(chunks[..i])
  {
    forall a, b | 0 <= a < b < i ensures Compatible(chunks[..i][a], chunks[..i][b]) {
      assert Compatible(chunks[a], chunks[b]);
    }
  }

  lemma {:induction false} WeightGrows(chunks: seq<Chunk>, i: nat, n: nat)
    requires i <= |chunks| && Agree(chunks)
    ensures Weight(PartsOf(chunks[..i]), n) <= Weight(PartsOf(chunks), n)
    decreases |chunks|
  {
    if i == |chunks| {
      assert chunks[..i] == chunks;
    } else {
      var m := |chunks| - 1;
      var c := chunks[m];
      AgreePrefix(chunks, m);
      WeightGrows(chunks[..m], i, n);
      assert chunks[..m][..i] == chunks[..i];
      var parts := PartsOf(chunks[..m]);
      if c.index in parts {
        Repeated(chunks, m);
        assert parts[c.index := c.body] == parts;
      } else {
        WeightInsert(parts, n, c.index, c.body);
      }
    }
  }

  /** An exact duplicate changes nothing. */
  lemma Repeated(chunks: seq<Chunk>, m: nat)
    requires m < |chunks| && Agree(chunks) && chunks[m].index in PartsOf(chunks[..m])
    ensures PartsOf(chunks[..m])[chunks[m].index] == chunks[m].body
  {
    AgreePrefix(chunks, m);
    PartsMeaning(chunks[..m]);
    var k :| 0 <= k < m && chunks[..m][k].index == chunks[m].index;
    assert Stored(PartsOf(chunks[..m]), chunks[..m][k]) && Compatible(chunks[k], chunks[m]);
  }

  ghost predicate Refused(codec: Codec, chunks: seq<Chunk>) {
    forall p :: !Accepted(codec, chunks, p)
  }

  lemma NotFull(codec: Codec, chunks: seq<Chunk>)
    requires !FullSet(chunks)
    ensures Refused(codec, chunks)
  {
  }

  lemma Overweight(codec: Codec, chunks: seq<Chunk>, i: nat)
    requires 0 < |chunks| && i <= |chunks| && Weight(PartsOf(chunks[..i]), chunks[0].count) > TRANSFER_BYTES
    ensures Refused(codec, chunks)
  {
    var parts := PartsOf(chunks);
    if FullSet(chunks) && forall k :: 0 <= k < chunks[0].count ==> k in parts {
      WeightGrows(chunks, i, chunks[0].count);
      JoinedWeight(parts, chunks[0].count);
    }
  }

  /** One more chunk that does not conflict. */
  lemma TakeChunk(chunks: seq<Chunk>, i: nat, n: nat)
    requires i < |chunks| && Agree(chunks[..i]) && chunks[i].index < n
    requires chunks[i].index in PartsOf(chunks[..i]) ==> PartsOf(chunks[..i])[chunks[i].index] == chunks[i].body
    ensures Agree(chunks[..i + 1])
    ensures PartsOf(chunks[..i + 1]) == PartsOf(chunks[..i])[chunks[i].index := chunks[i].body]
    ensures Weight(PartsOf(chunks[..i + 1]), n)
            == Weight(PartsOf(chunks[..i]), n) + if chunks[i].index in PartsOf(chunks[..i]) then 0 else |chunks[i].body|
  {
    var c, parts := chunks[i], PartsOf(chunks[..i]);
    assert chunks[..i + 1][..i] == chunks[..i] && chunks[..i + 1][i] == c;
    AgreeMore(chunks, i);
    if c.index in parts {
      assert parts[c.index := c.body] == parts;
    } else {
      WeightInsert(parts, n, c.index, c.body);
    }
  }

  lemma Misfit(codec: Codec, chunks: seq<Chunk>, i: nat)
    requires i < |chunks| && !Fits(chunks[i], chunks[0])
    ensures Refused(codec, chunks)
  {
    NotFull(codec, chunks);
  }

  lemma Conflicting(codec: Codec, chunks: seq<Chunk>, i: nat)
    requires i < |chunks| && Agree(chunks[..i])
    requires chunks[i].index in PartsOf(chunks[..i]) && PartsOf(chunks[..i])[chunks[i].index] != chunks[i].body
    ensures Refused(codec, chunks)
  {
    PartsMeaning(chunks[..i]);
    var k :| 0 <= k < i && chunks[..i][k].index == chunks[i].index;
    assert Stored(PartsOf(chunks[..i]), chunks[..i][k]) && !Compatible(chunks[k], chunks[i]);
    NotFull(codec, chunks);
  }

  /** The receiver's loop over the chunks: the parts, or a refusal. */
  method Gather(codec: Codec, chunks: seq<Chunk>) returns (r: Result<map<nat, Text>, string>)
    requires 0 < |chunks|
    ensures r.Ok? ==> Uniform(chunks) && Agree(chunks) && r.value == PartsOf(chunks)
    ensures r.Ok? ==> Weight(r.value, chunks[0].count) <= TRANSFER_BYTES
    ensures r.Err? ==> Refused(codec, chunks)
  {
    var first := chunks[0];
    var parts: map<nat, Text> := map[];
    var bytes := 0;
    assert chunks[..0] == [];
    EmptyWeight(first.count);
    for i := 0 to |chunks|
      invariant forall k :: 0 <= k < i ==> Fits(chunks[k], first)
      invariant Agree(chunks[..i]) && parts == PartsOf(chunks[..i])
      invariant bytes == Weight(parts, first.count) <= TRANSFER_BYTES
    {
      var c := chunks[i];
      if !ValidChunk(c) || !SameEnvelope(c, first) {
        Misfit(codec, chunks, i);
        return Err("invalid or mixed execution evidence transfer");
      }
      if c.index in parts && parts[c.index] != c.body {
        Conflicting(codec, chunks, i);
        return Err("conflicting execution evidence chunk");
      }
      TakeChunk(chunks, i, first.count);
      if c.index !in parts { bytes := bytes + |c.body|; }
      parts := parts[c.index := c.body];
      if bytes > TRANSFER_BYTES {
        Overweight(codec, chunks, i + 1);
        return Err("execution evidence transfer exceeds byte limit");
      }
    }
    assert chunks[..|chunks|] == chunks;
    return Ok(parts);
  }

  lemma {:induction false} EmptyWeight(n: nat)
    ensures Weight(map[], n) == 0
  {
    if n > 0 { EmptyWeight(n - 1); }
  }

  lemma AgreeMore(chunks: seq<Chunk>, i: nat)
    requires i < |chunks| && Agree(chunks[..i])
    requires chunks[i].index in PartsOf(chunks[..i]) ==> PartsOf(chunks[..i])[chunks[i].index] == chunks[i].body
    ensures Agree(chunks[..i + 1])
  {
    PartsMeaning(chunks[..i]);
    var more := chunks[..i + 1];
    forall a, b | 0 <= a < b < |more| ensures Compatible(more[a], more[b]) {
      if b < i {
        assert Compatible(chunks[..i][a], chunks[..i][b]);
      } else {
        assert Stored(PartsOf(chunks[..i]), chunks[..i][a]);
      }
    }
  }

  /** Index order, once no index is missing. */
  method JoinParts(parts: map<nat, Text>, count: nat) returns (json: Text)
    requires forall i :: 0 <= i < count ==> i in parts
    ensures json == Joined(parts, count) && |json| == Weight(parts, count)
  {
    json := [];
    for i := 0 to count
      invariant json == Joined(parts, i)
    {
      json := json + parts[i];
    }
    JoinedWeight(parts, count);
  }

  /** Digest, parse, admission and envelope of the joined text. */
  method OpenText(codec: Codec, first: Chunk, json: Text) returns (r: Result<Page, string>)
    ensures r.Ok? ==> Opens(codec, first, json, r.value)
    ensures r.Err? ==> forall p :: !Opens(codec, first, json, p)
  {
    if codec.digest(json) != first.transferId { return Err("execution evidence checksum mismatch"); }
    var page := codec.read(json);
    if page.None? { return Err("invalid execution evidence JSON"); }
    var encoded := EncodedPage(codec, page.value);
    if encoded.Err? { return Err(encoded.error); }
    var p := page.value;
    if || p.sourceId != first.sourceId || p.strategyId != first.strategyId || p.accountId != first.accountId
       || p.afterSequence != first.afterSequence || p.nextSequence != first.nextSequence
    {
      return Err("execution evidence envelope mismatch");
    }
    return Ok(p);
  }

  lemma CompleteIffFull(chunks: seq<Chunk>)
    requires 0 < |chunks| <= 2 * MAX_CHUNKS && Uniform(chunks) && Agree(chunks)
    ensures |PartsOf(chunks)| == chunks[0].count <==> FullSet(chunks)
    ensures FullSet(chunks) ==> forall i :: 0 <= i < chunks[0].count ==> i in PartsOf(chunks)
  {
    PartsMeaning(chunks);
    var parts := PartsOf(chunks);
    forall k | k in parts ensures k < chunks[0].count {
      assert Has(chunks, k);
      var i :| 0 <= i < |chunks| && chunks[i].index == k;
      assert Fits(chunks[i], chunks[0]);
    }
    NoGap(parts, chunks[0].count);
  }

  /** Assembly accepts exactly the accepted sets and returns their page. */
  method Assemble(codec: Codec, chunks: seq<Chunk>) returns (r: Result<Page, string>)
    ensures r.Ok? ==> Accepted(codec, chunks, r.value)
    ensures r.Err? ==> Refused(codec, chunks)
  {
    if chunks == [] { return Err("missing execution evidence transfer"); }
    if |chunks| > 2 * MAX_CHUNKS { return Err("too many evidence chunks"); }
    var first := chunks[0];
    var gathered := Gather(codec, chunks);
    if gathered.Err? { return Err(gathered.error); }
    var parts := gathered.value;
    CompleteIffFull(chunks);
    if |parts| != first.count { return Err("incomplete execution evidence transfer"); }
    var json := JoinParts(parts, first.count);
    r := OpenText(codec, first, json);
  }

  // ----- what survives the journey -----

  /** Any arrival order, with repetitions. */
  ghost predicate Arrangement(sent: seq<Chunk>, received: seq<Chunk>) {
    && (forall i :: 0 <= i < |received| ==> received[i] in sent)
    && (forall i :: 0 <= i < |sent| ==> sent[i] in received)
  }

  ghost predicate Sent(codec: Codec, page: Page, bodies: seq<Text>, c: Chunk) {
    c.index < |bodies| && c == ChunkOf(codec, page, bodies, c.index) && ValidChunk(c)
  }

  lemma ChunksAreSent(codec: Codec, page: Page, bodies: seq<Text>, sent: seq<Chunk>, c: Chunk)
    requires Faithful(codec, page) && Admitted(codec, page) && ChunksOf(codec, page, bodies, sent) && c in sent
    ensures Sent(codec, page, bodies, c)
  {
    var i :| 0 <= i < |sent| && sent[i] == c;
    assert Piece(bodies[i], i == |bodies| - 1);
    ChunkBound(codec.write(page), bodies);
  }

  lemma ArrangedFull(codec: Codec, page: Page, bodies: seq<Text>, sent: seq<Chunk>, received: seq<Chunk>)
    requires ChunksOf(codec, page, bodies, sent) && Arrangement(sent, received)
    requires forall i :: 0 <= i < |received| ==> Sent(codec, page, bodies, received[i])
    requires 0 < |received| <= 2 * MAX_CHUNKS
    ensures FullSet(received) && received[0].count == |bodies|
  {
    forall i | 0 <= i < |received| ensures Fits(received[i], received[0]) {
      assert Sent(codec, page, bodies, received[i]) && Sent(codec, page, bodies, received[0]);
    }
    forall i, j | 0 <= i < j < |received| ensures Compatible(received[i], received[j]) {
      assert Sent(codec, page, bodies, received[i]) && Sent(codec, page, bodies, received[j]);
    }
    forall k | 0 <= k < |bodies| ensures Has(received, k) {
      assert sent[k] in received;
      var i :| 0 <= i < |received| && received[i] == sent[k];
      assert received[i].index == k;
    }
  }

  lemma {:induction false} JoinedBodies(parts: map<nat, Text>, bodies: seq<Text>, n: nat)
    requires n <= |bodies| && forall i :: 0 <= i < n ==> i in parts && parts[i] == bodies[i]
    ensures Joined(parts, n) == Join(bodies[..n])
  {
    if n > 0 {
      JoinedBodies(parts, bodies, n - 1);
      assert bodies[..n][..n - 1] == bodies[..n - 1];
    } else {
      assert bodies[..0] == [];
    }
  }

  /** Chunks in any order, with exact duplicates up to seventy-four in all,
      assemble to the page that was cut. */
  lemma RoundTrip(codec: Codec, page: Page, bodies: seq<Text>, sent: seq<Chunk>, received: seq<Chunk>)
    requires Faithful(codec, page) && Admitted(codec, page) && ChunksOf(codec, page, bodies, sent)
    requires Arrangement(sent, received) && 0 < |received| <= 74
    ensures Accepted(codec, received, page)
  {
    forall i | 0 <= i < |received| ensures Sent(codec, page, bodies, received[i]) {
      ChunksAreSent(codec, page, bodies, sent, received[i]);
    }
    ArrangedFull(codec, page, bodies, sent, received);
    PartsMeaning(received);
    var parts := PartsOf(received);
    forall k | 0 <= k < |bodies| ensures k in parts && parts[k] == bodies[k] {
      assert Has(received, k);
      var i :| 0 <= i < |received| && received[i].index == k;
      assert Stored(parts, received[i]) && Sent(codec, page, bodies, received[i]);
    }
    JoinedBodies(parts, bodies, |bodies|);
    assert bodies[..|bodies|] == bodies;
    assert Sent(codec, page, bodies, received[0]);
  }

  /** Whatever else arrives under a page's transfer id, either it is refused or
      it is that page, as long as the page's text has no second preimage. */
  lemma NothingElseAssembles(codec: Codec, page: Page, received: seq<Chunk>, other: Page)
    requires Faithful(codec, page) && Accepted(codec, received, other)
    requires received[0].transferId == codec.digest(codec.write(page))
    requires forall t :: codec.digest(t) == codec.digest(codec.write(page)) ==> t == codec.write(page)
    ensures other == page
  {
    var json := Joined(PartsOf(received), received[0].count);
    assert codec.digest(json) == codec.digest(codec.write(page));
    assert codec.read(codec.write(page)) == Some(page);
  }

  /** A missing index, a chunk of another transfer or two bodies for one index
      refuse the whole set. */
  lemma PartialSetsAreRefused(codec: Codec, received: seq<Chunk>)
    requires received != []
    requires || (exists k :: 0 <= k < received[0].count && !Has(received, k))
             || (exists i :: 0 <= i < |received| && !SameEnvelope(received[i], received[0]))
             || (exists i, j :: 0 <= i < j < |received| && !Compatible(received[i], received[j]))
    ensures Refused(codec, received)
  {
    if exists i :: 0 <= i < |received| && !SameEnvelope(received[i], received[0]) {
      var i :| 0 <= i < |received| && !SameEnvelope(received[i], received[0]);
      assert !Fits(received[i], received[0]);
    }
    NotFull(codec, received);
  }
}
