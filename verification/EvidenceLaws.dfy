/** Which evidence pages and chunks are admitted, number by number, and what an
    assembled page has in common with the chunks it came in. */
module EvidenceLaws {
  import opened Basics
  import Strings = Text
  import opened EvidenceTransfer

  ghost predicate Labelled(s: string, limit: nat) { Strings.Trim(s) != "" && Strings.ByteLen(s) <= limit }

  /** Accounting belongs to a closed position whose entry order it names. */
  ghost predicate SoundObservation(o: Observation) {
    && 1 <= o.executionEpoch <= 9223372036854775807 && 1 <= o.checkpointRevision && |o.insightId| >= 1
    && (o.accounting != None ==>
        && var a := o.accounting.value;
        && o.closed && (o.entryOrderId == Some(a.entryOrderId) || o.entryOrderId == Some(a.positionId))
        && a.version == 1 && 1 <= a.openedAt <= a.closedAt <= a.asOf
        && Labelled(a.provider, 128) && Labelled(a.positionId, 128) && Labelled(a.entryOrderId, 128)
        && Labelled(a.currency, 32))
  }

  /** Strictly after the page's start, strictly increasing, ending at its end. */
  ghost predicate Climbs(page: Page) {
    var os := page.observations;
    && os != [] && page.afterSequence < os[0].sequence && os[|os| - 1].sequence == page.nextSequence
    && forall i, j :: 0 <= i < j < |os| ==> os[i].sequence < os[j].sequence
  }

  ghost predicate SoundPage(page: Page) {
    && page.schemaVersion == 2 && 1 <= |page.observations| <= 128
    && 1 <= |page.sourceId| <= 128 && 1 <= |page.strategyId| <= 256 && 1 <= |page.accountId| <= 256
    && page.afterSequence < page.nextSequence <= page.throughSequence <= 9223372036854775807
    && (page.hasMore <==> page.nextSequence < page.throughSequence)
    && Climbs(page)
    && forall i :: 0 <= i < |page.observations| ==> SoundObservation(page.observations[i])
  }

  lemma {:induction false} Climbing(page: Page, i: nat, j: nat)
    requires WellSequenced(page) && i < j < |page.observations|
    ensures page.observations[i].sequence < page.observations[j].sequence
    decreases j
  {
    assert InSequence(page, j);
    if i < j - 1 { Climbing(page, i, j - 1); }
  }

  lemma SequencedClimbs(page: Page)
    requires WellSequenced(page) && page.observations != []
    ensures Climbs(page)
  {
    assert InSequence(page, 0);
    forall i, j | 0 <= i < j < |page.observations|
      ensures page.observations[i].sequence < page.observations[j].sequence
    {
      Climbing(page, i, j);
    }
  }

  lemma SoundIsSequenced(page: Page)
    requires SoundPage(page)
    ensures WellSequenced(page)
  {
    forall i | 0 <= i < |page.observations| ensures InSequence(page, i) {
      assert SoundObservation(page.observations[i]);
      var last := |page.observations| - 1;
      assert i < last ==> page.observations[i].sequence < page.observations[last].sequence;
    }
  }

  lemma SequencedIsSound(page: Page, i: nat)
    requires WellSequenced(page) && i < |page.observations|
    ensures SoundObservation(page.observations[i])
  {
    assert InSequence(page, i);
  }

  /** Exactly the pages that may be sent and received. */
  lemma AdmittedExactly(codec: Codec, page: Page)
    ensures Admitted(codec, page) <==> SoundPage(page) && |codec.write(page)| <= 1179648
  {
    if SoundPage(page) { SoundIsSequenced(page); }
    if Admitted(codec, page) {
      SequencedClimbs(page);
      forall i | 0 <= i < |page.observations| ensures SoundObservation(page.observations[i]) {
        SequencedIsSound(page, i);
      }
    }
  }

  /** `n` observations that follow one another without a gap. */
  ghost function Range(n: nat): Page {
    Page(2, [0x61], [0x61], [0x61], 7, 7 + n, 7 + n, false,
         seq(n, i requires 0 <= i < n => Observation(1, 8 + i, 1, [0x61], false, None, None)), [])
  }

  /** From one to a hundred and twenty-eight observations are admitted, and no other
      number of them. */
  lemma RangesAdmitted(codec: Codec, n: nat)
    requires |codec.write(Range(n))| <= 1179648
    ensures Admitted(codec, Range(n)) <==> 1 <= n <= 128
  {
    AdmittedExactly(codec, Range(n));
  }

  /** Exactly the chunks a receiver looks at. */
  lemma ChunkExactly(c: Chunk)
    ensures ValidChunk(c) <==>
            && c.schemaVersion == 2 && 1 <= |c.sourceId| <= 128 && 1 <= |c.strategyId| <= 256 && 1 <= |c.accountId| <= 256
            && c.afterSequence < c.nextSequence <= 9223372036854775807
            && 0 <= c.index < c.count <= 37 && 1 <= |c.body| <= 32768
            && |c.transferId| == 64
            && forall i :: 0 <= i < 64 ==> '0' as int <= c.transferId[i] <= '9' as int
                                           || 'a' as int <= c.transferId[i] <= 'f' as int
  {
  }

  /** An assembled page is the page every one of its chunks announced. */
  lemma AcceptedMatchesChunks(codec: Codec, chunks: seq<Chunk>, page: Page, c: Chunk)
    requires Accepted(codec, chunks, page) && c in chunks
    ensures 1 <= |chunks| <= 74
    ensures page.sourceId == c.sourceId && page.strategyId == c.strategyId && page.accountId == c.accountId
    ensures page.afterSequence == c.afterSequence && page.nextSequence == c.nextSequence
    ensures exists json :: codec.digest(json) == c.transferId && codec.read(json) == Some(page) && |json| <= 1179648
    ensures SoundPage(page)
  {
    var i :| 0 <= i < |chunks| && chunks[i] == c;
    assert Fits(chunks[i], chunks[0]);
    AdmittedExactly(codec, page);
    var json := Joined(PartsOf(chunks), chunks[0].count);
    assert codec.digest(json) == c.transferId;
  }
}
