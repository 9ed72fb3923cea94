/** `append`, `output` and `termination` over the durable store, with other
    workers and readers committing between any two accesses of this one. */
module SandboxStreamStore {
  import opened Options
  import opened SandboxStream

  datatype Error =
    | ModeInvalid | LimitInvalid | OffsetInvalid | SequenceInvalid
    | ResourceChanged | CursorInvalid | CursorChanged | ReplayChanged | PortConflict | PortFailed

  datatype Result<+T> = Ok(value: T) | Err(error: Error)

  datatype Reply = Reply(page: Bytes, next: Option<Key>, end: bool, termination: Option<Termination>)

  /** A query whose cursor is any text; only text of the cursor form is looked up. */
  datatype Query = Query(resourceRef: Option<string>, cursor: Option<Key>, limit: nat)

  class ProductionSandboxStream {
    /** The durable artifacts, shared with every other process. */
    var store: Store
    /** No port fails of itself: what the service then owes its callers is exact. */
    const reliable: bool
    /** The keys this process has put into the store, in order. */
    ghost var written: seq<Key>

    constructor (store: Store, reliable: bool)
      requires StoreInv(store)
      ensures this.store == store && this.reliable == reliable && written == []
    {
      this.store, this.reliable, written := store, reliable, [];
    }

    /** The only error is one of the ports' own. */
    predicate PortsFailed<T>(r: Result<T>) {
      r.Ok? || (r.error == PortFailed && !reliable)
    }

    /** Any number of legal commits by others; the contract is all a caller knows. */
    method Yield()
      requires StoreInv(store)
      modifies this`store
      ensures StoreInv(store) && Grows(old(store), store)
    {
    }

    method Read(key: Key) returns (r: Result<Option<Value>>)
      requires StoreInv(store)
      modifies this`store
      ensures StoreInv(store) && Grows(old(store), store)
      ensures r.Ok? ==> r.value == if key in store then Some(store[key]) else None
      ensures PortsFailed(r)
    {
      Yield();
      var fault: bool := *;
      if fault && !reliable { return Err(PortFailed); }
      return Ok(if key in store then Some(store[key]) else None);
    }

    /** Put-if-absent: an equal value is a replay, a different one is refused.
        The call may be reported as failed after it took effect. */
    method Commit(key: Key, value: Value) returns (r: Result<bool>)
      requires StoreInv(store) && Legal(store, key, value)
      modifies this`store, this`written
      ensures StoreInv(store) && Grows(old(store), store)
      ensures r.Ok? ==> key in store && store[key] == value
      ensures r == Err(PortConflict) || PortsFailed(r)
      ensures r == Err(PortConflict) ==> key in store && store[key] != value
      ensures written == old(written) || (key !in old(store) && written == old(written) + [key])
    {
      Yield();
      var fault: bool := *;
      if fault && !reliable { return Err(PortFailed); }
      if key !in store {
        LegalStays(old(store), store, key, value);
        LegalCommitKeepsInv(store, key, value);
        store := store[key := value];
        written := written + [key];
        fault := *;
        if fault && !reliable { return Err(PortFailed); }
        return Ok(false);
      } else if store[key] != value {
        return Err(PortConflict);
      } else {
        return Ok(true);
      }
    }

    /** Commit, then read back. What was committed is never found changed. */
    method Save(key: Key, value: Value) returns (r: Result<bool>)
      requires StoreInv(store) && Legal(store, key, value)
      modifies this`store, this`written
      ensures StoreInv(store) && Grows(old(store), store)
      ensures r.Ok? ==> key in store && store[key] == value
      ensures r == Err(PortConflict) || PortsFailed(r)
      ensures r == Err(PortConflict) ==> key in store && store[key] != value
      ensures written == old(written) || (key !in old(store) && written == old(written) + [key])
    {
      r := Commit(key, value);
      if r.Err? { return; }
      var back := Read(key);
      if back.Err? { return Err(back.error); }
      if back.value != Some(value) { return Err(ReplayChanged); }
    }

    method LoadChunk(record: Record, index: nat) returns (r: Result<Option<Chunk>>)
      requires StoreInv(store)
      modifies this`store
      ensures StoreInv(store) && Grows(old(store), store)
      ensures r.Ok? ==> r.value == Found(store, record, index)
      ensures PortsFailed(r)
    {
      var saved := Read(ChunkKey(record, index));
      if saved.Err? { return Err(saved.error); }
      if saved.value.None? { return Ok(None); }
      assert Legal(store, ChunkKey(record, index), store[ChunkKey(record, index)]);
      return Ok(Some(saved.value.value.chunk));
    }

    /** The place of a chunk behind the one before it. */
    method CheckPlace(record: Record, chunk: Chunk) returns (r: Result<bool>)
      requires StoreInv(store)
      modifies this`store
      ensures StoreInv(store) && Grows(old(store), store)
      ensures r.Ok? ==> Continues(store, record, chunk)
      ensures Continues(old(store), record, chunk) ==> PortsFailed(r)
      ensures r.Err? ==> r.error == OffsetInvalid || r.error == SequenceInvalid || PortsFailed(r)
    {
      if chunk.index == 0 {
        return if chunk.offset != 0 then Err(OffsetInvalid) else Ok(true);
      }
      var previous := LoadChunk(record, chunk.index - 1);
      if previous.Err? { return Err(previous.error); }
      if previous.value.None? || previous.value.value.end
         || previous.value.value.offset + |previous.value.value.bytes| != chunk.offset
      {
        return Err(SequenceInvalid);
      }
      return Ok(true);
    }

    /** Store a chunk in its place, then the terminal record if it is final. */
    method SaveChunk(record: Record, chunk: Chunk) returns (r: Result<bool>)
      requires StoreInv(store) && ChunkFits(record, chunk) && Continues(store, record, chunk)
      modifies this`store, this`written
      ensures StoreInv(store) && Grows(old(store), store)
      ensures r.Ok? ==> Has(store, record, chunk.index) && At(store, record, chunk.index) == chunk
      ensures r.Ok? && chunk.end ==> EndKey(record) in store && store[EndKey(record)] == ChunkValue(chunk)
      ensures r == Err(PortConflict) || PortsFailed(r)
      ensures r == Err(PortConflict) ==> Has(store, record, chunk.index) && At(store, record, chunk.index) != chunk
      ensures Wrote(record, chunk, old(written), written)
    {
      r := Save(ChunkKey(record, chunk.index), ChunkValue(chunk));
      if r.Err? {
        if r.error == PortConflict {
          assert Legal(store, ChunkKey(record, chunk.index), store[ChunkKey(record, chunk.index)]);
        }
        return;
      }
      if chunk.end {
        r := Save(EndKey(record), ChunkValue(chunk));
        FinalChunkDecidesTheRecord(store, record, chunk);
      }
    }

    /** A chunk is acknowledged only once it is stored, and a final chunk only
        once the terminal record is too. An already stored chunk may be appended
        again, which restores a terminal record lost to a crash in between. */
    method Append(record: Record, chunk: Chunk) returns (r: Result<bool>)
      requires StoreInv(store)
      modifies this`store, this`written
      ensures StoreInv(store) && Grows(old(store), store)
      ensures r.Ok? ==> Has(store, record, chunk.index) && At(store, record, chunk.index) == chunk
      ensures r.Ok? && chunk.end ==> EndKey(record) in store && store[EndKey(record)] == ChunkValue(chunk)
      ensures record.plan.mode == Foreground <==> r == Err(ModeInvalid)
      ensures record.plan.mode != Foreground ==>
                (r == Err(LimitInvalid) <==> !(ChunkParses(chunk) && ChunkFits(record, chunk)))
      ensures r != Err(ReplayChanged)
      // a chunk in its place is taken exactly if no other chunk holds that place
      ensures Acceptable(old(store), record, chunk) ==>
                PortsFailed(r) || (r == Err(PortConflict) && Has(store, record, chunk.index))
      ensures Acceptable(old(store), record, chunk) && reliable ==> (r.Ok? <==> IsStored(store, record, chunk))
      ensures IsStored(old(store), record, chunk) && record.plan.mode != Foreground && ChunkParses(chunk) ==> PortsFailed(r)
      ensures !Continues(store, record, chunk) ==> written == old(written)
      ensures Wrote(record, chunk, old(written), written)
    {
      if record.plan.mode == Foreground { return Err(ModeInvalid); }
      if IsStored(store, record, chunk) { StoredChunksAreLegal(store, record, chunk); }
      if !ChunkParses(chunk) || !ChunkFits(record, chunk) { return Err(LimitInvalid); }
      var place := CheckPlace(record, chunk);
      if place.Err? { return place; }
      r := SaveChunk(record, chunk);
    }

    /** Where a query's cursor points. */
    method Resolve(record: Record, cursor: Option<Key>) returns (r: Result<(nat, nat)>)
      requires StoreInv(store)
      modifies this`store
      ensures StoreInv(store) && Grows(old(store), store)
      ensures r.Ok? ==> r.value == PositionOf(cursor) && Issuable(store, record, r.value.0, r.value.1)
      ensures r.Ok? && cursor.Some? ==> Issued(store, record, cursor.value)
      ensures cursor.None? || Issued(old(store), record, cursor.value) ==> PortsFailed(r)
      ensures r.Err? ==> r.error == CursorInvalid || r.error == CursorChanged || PortsFailed(r)
    {
      if cursor.None? { return Ok((0, 0)); }
      if !cursor.value.CursorKey? { return Err(CursorInvalid); }
      var saved := Read(cursor.value);
      if saved.Err? { return Err(saved.error); }
      if saved.value.None? { return Err(CursorChanged); }
      assert Legal(store, cursor.value, store[cursor.value]);
      var position := saved.value.value;
      if position.record != record || cursor.value != CursorKey(record, position.index, position.offset) {
        return Err(CursorChanged);
      }
      return Ok((position.index, position.offset));
    }

    method SaveCursor(record: Record, index: nat, offset: nat) returns (r: Result<bool>)
      requires StoreInv(store) && Issuable(store, record, index, offset)
      modifies this`store, this`written
      ensures StoreInv(store) && Grows(old(store), store)
      ensures r.Ok? ==> CursorKey(record, index, offset) in store
      ensures PortsFailed(r)
    {
      r := Save(CursorKey(record, index, offset), CursorValue(record, index, offset));
      CursorsHaveOneValue(store, record, index, offset);
    }

    method SavePage(key: Key) returns (r: Result<bool>)
      requires StoreInv(store) && key.PageKey?
      modifies this`store, this`written
      ensures StoreInv(store) && Grows(old(store), store)
      ensures PortsFailed(r)
    {
      r := Commit(key, PageValue(key.page));
      assert key in store ==> Legal(store, key, store[key]);
    }

    /** Keep a page behind the cursor that continues it. */
    method Hand(record: Record, index: nat, offset: nat, limit: nat, page: Page) returns (r: Result<Option<Key>>)
      requires StoreInv(store) && (page.end || Issuable(store, record, page.index, page.offset))
      modifies this`store, this`written
      ensures StoreInv(store) && Grows(old(store), store)
      ensures r.Ok? ==> r.value == NextCursor(record, page) && (!page.end ==> Issued(store, record, r.value.value))
      ensures PortsFailed(r)
    {
      if !page.end {
        var saved := SaveCursor(record, page.index, page.offset);
        if saved.Err? { return Err(saved.error); }
      }
      var output := SavePage(PageKey(record, index, offset, limit, page.bytes, page.end));
      if output.Err? { return Err(output.error); }
      return Ok(NextCursor(record, page));
    }

    /** One page from a position. */
    method Serve(record: Record, index: nat, offset: nat, limit: nat) returns (r: Result<Reply>, ghost seen: Store)
      requires StoreInv(store) && Issuable(store, record, index, offset)
      modifies this`store, this`written
      ensures StoreInv(store) && Grows(old(store), seen) && Grows(seen, store)
      ensures r.Ok? ==>
                && IsReply(seen, record, Poll(seen, record, index, offset, limit), r.value)
                && (r.value.next.Some? ==> Issued(store, record, r.value.next.value))
      ensures PortsFailed(r)
    {
      var chunk := LoadChunk(record, index);
      seen := store;
      if chunk.Err? { return Err(chunk.error), seen; }
      PollIssues(store, record, index, offset, limit);
      var page := PageFrom(chunk.value, index, offset, limit).value;
      var next := Hand(record, index, offset, limit, page);
      if next.Err? { return Err(next.error), seen; }
      return Ok(Reply(page.bytes, next.value, page.end,
                      if page.end then chunk.value.value.termination else None)), seen;
    }

    /** The page is what a poll of the cursor's position yields in one state
        `seen` of the store during the call; the next cursor is stored before
        the page is handed out. A cursor that was issued is never refused. */
    method Output(record: Record, query: Query) returns (r: Result<Reply>, ghost seen: Store)
      requires StoreInv(store)
      modifies this`store, this`written
      ensures StoreInv(store) && Grows(old(store), seen) && Grows(seen, store)
      ensures query.resourceRef != record.resourceRef <==> r == Err(ResourceChanged)
      ensures r.Ok? ==>
                && (query.cursor.Some? ==> Issued(seen, record, query.cursor.value))
                && var (index, offset) := PositionOf(query.cursor);
                   IsReply(seen, record, Poll(seen, record, index, offset, query.limit), r.value)
                   && (r.value.next.Some? ==> Issued(store, record, r.value.next.value))
      ensures query.resourceRef == record.resourceRef
              && (query.cursor.None? || Issued(old(store), record, query.cursor.value)) ==>
                PortsFailed(r)
      ensures query.cursor.Some? && !Issued(store, record, query.cursor.value) ==> r.Err? && written == old(written)
    {
      seen := store;
      if query.resourceRef != record.resourceRef { return Err(ResourceChanged), seen; }
      var position := Resolve(record, query.cursor);
      seen := store;
      if position.Err? { return Err(position.error), seen; }
      r, seen := Serve(record, position.value.0, position.value.1, query.limit);
    }

    /** What a finished stream says about how it ended never changes. */
    method GetTermination(record: Record) returns (r: Result<Option<Termination>>)
      requires StoreInv(store)
      modifies this`store
      ensures StoreInv(store) && Grows(old(store), store)
      ensures r.Ok? && r.value.Some? ==>
                exists last :: FinishedAt(store, record, last) && At(store, record, last).termination == r.value
      ensures r.Ok? && EndKey(record) in old(store) ==>
                old(store)[EndKey(record)].ChunkValue? && r.value == old(store)[EndKey(record)].chunk.termination
      ensures r.Ok? && EndKey(record) !in store ==> r.value == None
      ensures PortsFailed(r)
    {
      var saved := Read(EndKey(record));
      if saved.Err? { return Err(saved.error); }
      if saved.value.None? { return Ok(None); }
      var final := saved.value.value;
      assert Legal(store, EndKey(record), final);
      assert FinishedAt(store, record, final.chunk.index);
      return Ok(final.chunk.termination);
    }
  }

  lemma FinalChunkDecidesTheRecord(s: Store, record: Record, chunk: Chunk)
    requires StoreInv(s) && chunk.end && Has(s, record, chunk.index) && At(s, record, chunk.index) == chunk
    ensures EndKey(record) in s ==> s[EndKey(record)] == ChunkValue(chunk)
  {
    if EndKey(record) in s {
      TerminalRecordIsFinalChunk(s, record, chunk.index);
    }
  }

  /** All that handing out a page needs to know about it. */
  lemma PollIssues(s: Store, record: Record, index: nat, offset: nat, limit: nat)
    requires Issuable(s, record, index, offset)
    ensures var page := Poll(s, record, index, offset, limit);
      && page.Some?
      && (if page.value.end then page.value.index == index && Has(s, record, index)
          else Issuable(s, record, page.value.index, page.value.offset))
  {
    PollAdvances(s, record, index, offset, limit);
  }

  /** The chunk is well-formed, within its limits, and follows what is stored. */
  predicate Acceptable(s: Store, record: Record, chunk: Chunk) {
    record.plan.mode != Foreground && ChunkParses(chunk) && ChunkFits(record, chunk) && Continues(s, record, chunk)
  }

  predicate IsStored(s: Store, record: Record, chunk: Chunk) {
    Has(s, record, chunk.index) && At(s, record, chunk.index) == chunk
  }

  lemma StoredChunksAreLegal(s: Store, record: Record, chunk: Chunk)
    requires StoreInv(s) && IsStored(s, record, chunk)
    ensures ChunkFits(record, chunk) && Continues(s, record, chunk)
  {
    assert Legal(s, ChunkKey(record, chunk.index), s[ChunkKey(record, chunk.index)]);
  }

  lemma CursorsHaveOneValue(s: Store, record: Record, index: nat, offset: nat)
    requires StoreInv(s)
    ensures CursorKey(record, index, offset) in s ==>
              s[CursorKey(record, index, offset)] == CursorValue(record, index, offset)
  {
    if CursorKey(record, index, offset) in s {
      assert Legal(s, CursorKey(record, index, offset), s[CursorKey(record, index, offset)]);
    }
  }

  /** An append puts in at most its chunk and then, for a final one, the terminal record. */
  predicate Wrote(record: Record, chunk: Chunk, before: seq<Key>, after: seq<Key>) {
    || after == before
    || after == before + [ChunkKey(record, chunk.index)]
    || (chunk.end && after == before + [EndKey(record)])
    || (chunk.end && after == before + [ChunkKey(record, chunk.index)] + [EndKey(record)])
  }

  function PositionOf(cursor: Option<Key>): (nat, nat) {
    if cursor.Some? && cursor.value.CursorKey? then (cursor.value.index, cursor.value.offset) else (0, 0)
  }

  /** The cursor was issued for this record. */
  predicate Issued(s: Store, record: Record, cursor: Key) {
    cursor.CursorKey? && cursor.record == record && cursor in s
  }

  function NextCursor(record: Record, page: Page): Option<Key> {
    if page.end then None else Some(CursorKey(record, page.index, page.offset))
  }

  /** The reply carries the page, and the cursor after it unless the stream ended. */
  predicate IsReply(s: Store, record: Record, page: Option<Page>, reply: Reply) {
    && page.Some?
    && reply.page == page.value.bytes && reply.end == page.value.end
    && reply.next == NextCursor(record, page.value)
    && reply.termination == (if page.value.end && Has(s, record, page.value.index)
                             then At(s, record, page.value.index).termination else None)
  }
}
