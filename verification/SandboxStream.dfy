/** The write-once output stream of a sandbox execution: appends by the worker
    and polls by readers, interleaved at every store access. */
module SandboxStream {
  import opened Options

  newtype Byte = b: int | 0 <= b < 256
  type Bytes = seq<Byte>

  const MAX_CHUNK_BYTES := 32768

  datatype Mode = Foreground | Background | Service
  datatype Plan = Plan(identity: string, mode: Mode, maxOutputBytes: nat)

  /** An execution record. Its binding is a digest over the identity, the plan's
      fingerprint and the environment; digests of distinct values are taken to
      be distinct, so the record itself stands for its binding. */
  datatype Record = Record(plan: Plan, resourceRef: Option<string>)

  datatype Termination = Termination(exitCode: Option<nat>, reasonCode: string, taskProcessExited: bool)
  datatype Chunk = Chunk(index: nat, offset: nat, bytes: Bytes, end: bool, termination: Option<Termination>)

  datatype Key =
    | ChunkKey(record: Record, index: nat)
    | EndKey(record: Record)
    | CursorKey(record: Record, index: nat, offset: nat)
    | PageKey(record: Record, index: nat, offset: nat, limit: nat, page: Bytes, end: bool)

  datatype Value =
    | ChunkValue(chunk: Chunk)
    | CursorValue(record: Record, index: nat, offset: nat)
    | PageValue(page: Bytes)

  type Store = map<Key, Value>

  // ------------------------------------------------------- what may be stored

  predicate ChunkFits(record: Record, chunk: Chunk) {
    && |chunk.bytes| <= MAX_CHUNK_BYTES
    && (chunk.end || chunk.bytes != [])
    && chunk.index <= record.plan.maxOutputBytes
    && chunk.offset + |chunk.bytes| <= record.plan.maxOutputBytes
  }

  /** The schema of a chunk: a termination needs a final chunk. */
  predicate ChunkParses(chunk: Chunk) {
    chunk.termination.Some? ==>
      chunk.end && (chunk.termination.value.taskProcessExited || chunk.termination.value.exitCode.None?)
  }

  predicate Has(s: Store, record: Record, index: nat) {
    ChunkKey(record, index) in s && s[ChunkKey(record, index)].ChunkValue?
  }

  function At(s: Store, record: Record, index: nat): Chunk
    requires Has(s, record, index)
  {
    s[ChunkKey(record, index)].chunk
  }

  /** The chunk may follow what is stored before it. */
  predicate Continues(s: Store, record: Record, chunk: Chunk) {
    if chunk.index == 0 then chunk.offset == 0
    else
      && Has(s, record, chunk.index - 1)
      && !At(s, record, chunk.index - 1).end
      && At(s, record, chunk.index - 1).offset + |At(s, record, chunk.index - 1).bytes| == chunk.offset
  }

  /** A position a reader may be told to resume from. */
  predicate Issuable(s: Store, record: Record, index: nat, offset: nat) {
    && (index == 0 || (Has(s, record, index - 1) && !At(s, record, index - 1).end))
    && (offset == 0 || (Has(s, record, index) && offset < |At(s, record, index).bytes|))
  }

  predicate Legal(s: Store, key: Key, value: Value) {
    match key
    case ChunkKey(record, index) =>
      && value.ChunkValue? && value.chunk.index == index
      && ChunkFits(record, value.chunk) && Continues(s, record, value.chunk)
    case EndKey(record) =>
      && value.ChunkValue? && value.chunk.end
      && Has(s, record, value.chunk.index) && At(s, record, value.chunk.index) == value.chunk
    case CursorKey(record, index, offset) =>
      value == CursorValue(record, index, offset) && Issuable(s, record, index, offset)
    case PageKey(_, _, _, _, page, _) => value == PageValue(page)
  }

  ghost predicate StoreInv(s: Store) {
    forall key {:trigger Legal(s, key, s[key])} :: key in s ==> Legal(s, key, s[key])
  }

  /** Nothing stored is ever removed or replaced. */
  ghost predicate Grows(s: Store, t: Store) {
    forall key :: key in s ==> key in t && t[key] == s[key]
  }

  lemma LegalCommitKeepsInv(s: Store, key: Key, value: Value)
    requires StoreInv(s) && key !in s && Legal(s, key, value)
    ensures StoreInv(s[key := value]) && Grows(s, s[key := value])
  {
    var t := s[key := value];
    forall k | k in t
      ensures Legal(t, k, t[k])
    {
      LegalStays(s, t, k, t[k]);
    }
  }

  lemma LegalStays(s: Store, t: Store, key: Key, value: Value)
    requires Grows(s, t) && Legal(s, key, value)
    ensures Legal(t, key, value)
  {
  }

  // ------------------------------------------------------------- the stream

  /** The bytes of the first `count` chunks. */
  function Stream(s: Store, record: Record, count: nat): Bytes {
    if count == 0 || !Has(s, record, count - 1) then []
    else Stream(s, record, count - 1) + At(s, record, count - 1).bytes
  }

  /** Everything before a reading position. */
  function UpTo(s: Store, record: Record, index: nat, offset: nat): Bytes {
    Stream(s, record, index)
    + if Has(s, record, index) && offset <= |At(s, record, index).bytes|
      then At(s, record, index).bytes[..offset] else []
  }

  /** The store holds the final chunk, at this index. */
  predicate FinishedAt(s: Store, record: Record, last: nat) {
    Has(s, record, last) && At(s, record, last).end
  }

  function Whole(s: Store, record: Record, last: nat): Bytes {
    Stream(s, record, last + 1)
  }

  /** Chunks are contiguous from zero, each where the ones before it end, with
      no chunk after a final one, and all within the limit of the plan. */
  lemma {:induction false} ChunksAreContiguous(s: Store, record: Record, index: nat)
    requires StoreInv(s) && Has(s, record, index)
    ensures var chunk := At(s, record, index);
      && chunk.index == index <= chunk.offset == |Stream(s, record, index)|
      && |Stream(s, record, index + 1)| <= record.plan.maxOutputBytes
      && (forall j :: 0 <= j < index ==> Has(s, record, j) && !At(s, record, j).end && At(s, record, j).bytes != [])
  {
    assert Legal(s, ChunkKey(record, index), s[ChunkKey(record, index)]);
    if index > 0 {
      ChunksAreContiguous(s, record, index - 1);
      assert Legal(s, ChunkKey(record, index - 1), s[ChunkKey(record, index - 1)]);
    }
  }

  /** At most one chunk is final, it is the last, and a terminal record is that chunk. */
  lemma FinalChunkIsLast(s: Store, record: Record, last: nat, index: nat)
    requires StoreInv(s) && FinishedAt(s, record, last) && Has(s, record, index)
    ensures index <= last && (At(s, record, index).end ==> index == last)
  {
    ChunksAreContiguous(s, record, index);
    ChunksAreContiguous(s, record, last);
  }

  lemma TerminalRecordIsFinalChunk(s: Store, record: Record, last: nat)
    requires StoreInv(s) && FinishedAt(s, record, last) && EndKey(record) in s
    ensures s[EndKey(record)] == ChunkValue(At(s, record, last))
  {
    assert Legal(s, EndKey(record), s[EndKey(record)]);
    FinalChunkIsLast(s, record, last, s[EndKey(record)].chunk.index);
  }

  lemma {:induction false} StreamStays(s: Store, t: Store, record: Record, count: nat)
    requires Grows(s, t) && (count == 0 || Has(s, record, count - 1)) && StoreInv(s)
    ensures Stream(t, record, count) == Stream(s, record, count)
  {
    if count > 1 {
      ChunksAreContiguous(s, record, count - 1);
      StreamStays(s, t, record, count - 1);
    } else if count == 1 {
      assert Has(t, record, 0);
    }
  }

  lemma UpToStart(s: Store, record: Record, index: nat)
    ensures UpTo(s, record, index, 0) == Stream(s, record, index)
  {
  }

  lemma UpToStays(s: Store, t: Store, record: Record, index: nat, offset: nat)
    requires StoreInv(s) && Grows(s, t) && Issuable(s, record, index, offset)
    ensures Issuable(t, record, index, offset) && UpTo(t, record, index, offset) == UpTo(s, record, index, offset)
  {
    StreamStays(s, t, record, index);
    if offset == 0 {
      UpToStart(s, record, index);
      UpToStart(t, record, index);
    } else {
      assert Has(t, record, index) && At(t, record, index) == At(s, record, index);
    }
  }

  // ---------------------------------------------------------------- polling

  datatype Page = Page(bytes: Bytes, end: bool, index: nat, offset: nat)

  function Found(s: Store, record: Record, index: nat): Option<Chunk> {
    if Has(s, record, index) then Some(At(s, record, index)) else None
  }

  /** What one poll from a position makes of the chunk it finds there; nothing,
      if the position lies beyond the chunk. */
  function PageFrom(found: Option<Chunk>, index: nat, offset: nat, limit: nat): Option<Page> {
    var bytes := if found.Some? then found.value.bytes else [];
    if offset > |bytes| then None
    else
      var stop := if offset + limit <= |bytes| then offset + limit else |bytes|;
      var consumed := stop == |bytes|;
      var end := found.Some? && found.value.end && consumed;
      var nextIndex := if found.Some? && consumed && !end then index + 1 else index;
      Some(Page(bytes[offset..stop], end, nextIndex, if nextIndex == index then stop else 0))
  }

  /** One poll against one state of the store. */
  function Poll(s: Store, record: Record, index: nat, offset: nat, limit: nat): Option<Page> {
    PageFrom(Found(s, record, index), index, offset, limit)
  }

  lemma UpToInside(s: Store, record: Record, index: nat, offset: nat, stop: nat)
    requires Has(s, record, index) && offset <= stop <= |At(s, record, index).bytes|
    ensures UpTo(s, record, index, stop)
         == UpTo(s, record, index, offset) + At(s, record, index).bytes[offset..stop]
  {
    var bytes := At(s, record, index).bytes;
    assert bytes[..offset] + bytes[offset..stop] == bytes[..stop];
  }

  lemma UpToWholeChunk(s: Store, record: Record, index: nat)
    requires Has(s, record, index)
    ensures UpTo(s, record, index, |At(s, record, index).bytes|) == UpTo(s, record, index + 1, 0)
         == Stream(s, record, index + 1)
  {
    var bytes := At(s, record, index).bytes;
    assert bytes[..|bytes|] == bytes;
    assert UpTo(s, record, index + 1, 0) == Stream(s, record, index + 1);
  }

  /** A page inside a chunk stops short of its last byte. */
  lemma PollInside(s: Store, record: Record, index: nat, offset: nat, limit: nat)
    requires Issuable(s, record, index, offset)
    requires Has(s, record, index) && offset + limit < |At(s, record, index).bytes|
    ensures var bytes := At(s, record, index).bytes;
      && Poll(s, record, index, offset, limit) == Some(Page(bytes[offset..offset + limit], false, index, offset + limit))
      && UpTo(s, record, index, offset) + bytes[offset..offset + limit] == UpTo(s, record, index, offset + limit)
      && Issuable(s, record, index, offset + limit)
  {
    UpToInside(s, record, index, offset, offset + limit);
  }

  /** A page that reaches the end of a chunk. */
  lemma PollToChunkEnd(s: Store, record: Record, index: nat, offset: nat, limit: nat)
    requires Issuable(s, record, index, offset)
    requires Has(s, record, index) && offset + limit >= |At(s, record, index).bytes|
    ensures var chunk := At(s, record, index);
      && offset <= |chunk.bytes|
      && Poll(s, record, index, offset, limit)
           == Some(if chunk.end then Page(chunk.bytes[offset..], true, index, |chunk.bytes|)
                   else Page(chunk.bytes[offset..], false, index + 1, 0))
      && UpTo(s, record, index, offset) + chunk.bytes[offset..] == UpTo(s, record, index + 1, 0)
         == Stream(s, record, index + 1)
  {
    var bytes := At(s, record, index).bytes;
    assert bytes[offset..] == bytes[offset..|bytes|];
    UpToInside(s, record, index, offset, |bytes|);
    UpToWholeChunk(s, record, index);
  }

  /** A page is what follows its cursor, the next cursor follows the page and is
      one that may be issued, and only the end of the stream is reported as the end. */
  lemma PollAdvances(s: Store, record: Record, index: nat, offset: nat, limit: nat)
    requires Issuable(s, record, index, offset)
    ensures Poll(s, record, index, offset, limit).Some?
    ensures var page := Poll(s, record, index, offset, limit).value;
      && |page.bytes| <= limit
      && if page.end
         then FinishedAt(s, record, page.index) && UpTo(s, record, index, offset) + page.bytes == Whole(s, record, page.index)
         else Issuable(s, record, page.index, page.offset)
              && UpTo(s, record, index, offset) + page.bytes == UpTo(s, record, page.index, page.offset)
  {
    if !Has(s, record, index) {
      assert Poll(s, record, index, offset, limit) == Some(Page([], false, index, 0));
    } else if offset + limit < |At(s, record, index).bytes| {
      PollInside(s, record, index, offset, limit);
    } else {
      PollToChunkEnd(s, record, index, offset, limit);
    }
  }

  /** What a reader collected along a chain of cursors, and where it stands. */
  datatype Reading = Reading(bytes: Bytes, index: nat, offset: nat, ended: bool)

  const UNREAD := Reading([], 0, 0, false)

  function Next(r: Reading, page: Page): Reading {
    Reading(r.bytes + page.bytes, page.index, page.offset, page.end)
  }

  /** Follow the cursors until the end: each poll has its own limit and meets its
      own, later state of the store. Nothing, if a cursor is refused on the way. */
  function Follow(record: Record, stores: seq<Store>, limits: seq<nat>, r: Reading): Option<Reading>
    requires |stores| == |limits|
  {
    if stores == [] || r.ended then Some(r)
    else
      match Poll(stores[0], record, r.index, r.offset, limits[0])
      case None => None
      case Some(page) =>
        Follow(record, stores[1..], limits[1..], Next(r, page))
  }

  ghost predicate Growing(stores: seq<Store>) {
    && (forall i :: 0 <= i < |stores| ==> StoreInv(stores[i]))
    && (forall i :: 0 < i < |stores| ==> Grows(stores[i - 1], stores[i]))
  }

  /** The reader has exactly the bytes before its position, or the whole stream. */
  predicate Faithful(s: Store, record: Record, r: Reading) {
    if r.ended then FinishedAt(s, record, r.index) && r.bytes == Whole(s, record, r.index)
    else Issuable(s, record, r.index, r.offset) && r.bytes == UpTo(s, record, r.index, r.offset)
  }

  lemma FaithfulStays(s: Store, t: Store, record: Record, r: Reading)
    requires StoreInv(s) && Grows(s, t) && Faithful(s, record, r)
    ensures Faithful(t, record, r)
  {
    if r.ended {
      StreamStays(s, t, record, r.index + 1);
    } else {
      UpToStays(s, t, record, r.index, r.offset);
    }
  }

  lemma {:induction false} ChainIsFaithful(record: Record, stores: seq<Store>, limits: seq<nat>, r: Reading)
    requires |stores| == |limits| > 0 && Growing(stores) && Faithful(stores[0], record, r)
    ensures Follow(record, stores, limits, r).Some?
    ensures Faithful(stores[|stores| - 1], record, Follow(record, stores, limits, r).value)
  {
    var last := stores[|stores| - 1];
    if r.ended {
      GrowsToLast(stores);
      FaithfulStays(stores[0], last, record, r);
    } else {
      PollAdvances(stores[0], record, r.index, r.offset, limits[0]);
      var next := Next(r, Poll(stores[0], record, r.index, r.offset, limits[0]).value);
      assert Faithful(stores[0], record, next);
      if |stores| > 1 {
        FaithfulStays(stores[0], stores[1], record, next);
        ChainIsFaithful(record, stores[1..], limits[1..], next);
      }
    }
  }

  lemma {:induction false} GrowsToLast(stores: seq<Store>)
    requires stores != [] && Growing(stores)
    ensures Grows(stores[0], stores[|stores| - 1])
  {
    if |stores| > 1 {
      GrowsToLast(stores[1..]);
    }
  }

  /** Whatever was appended between the polls and whatever the limits, the pages
      along a chain of cursors from the beginning are exactly the stream up to
      the last cursor, and the whole stream once the end is reported. */
  lemma ReadersSeeTheStream(record: Record, stores: seq<Store>, limits: seq<nat>)
    requires |stores| == |limits| > 0 && Growing(stores)
    ensures Follow(record, stores, limits, UNREAD).Some?
    ensures var r := Follow(record, stores, limits, UNREAD).value;
      var s := stores[|stores| - 1];
      r.bytes == if r.ended then Whole(s, record, r.index) else UpTo(s, record, r.index, r.offset)
    ensures var r := Follow(record, stores, limits, UNREAD).value;
      r.ended ==> FinishedAt(stores[|stores| - 1], record, r.index)
  {
    assert UpTo(stores[0], record, 0, 0) == [];
    ChainIsFaithful(record, stores, limits, UNREAD);
  }

  // ------------------------------------------------------------- progress

  lemma {:induction false} StreamIsPrefix(s: Store, record: Record, count: nat, last: nat)
    requires StoreInv(s) && Has(s, record, last) && count <= last + 1
    ensures Stream(s, record, count) <= Stream(s, record, last + 1)
  {
    if count <= last && last > 0 {
      ChunksAreContiguous(s, record, last);
      StreamIsPrefix(s, record, count, last - 1);
    }
  }

  /** Every position of a finished stream lies at or before the final chunk, and
      what precedes it is a prefix of the whole. */
  lemma PositionsPrecedeTheEnd(s: Store, record: Record, last: nat, index: nat, offset: nat)
    requires StoreInv(s) && FinishedAt(s, record, last) && Issuable(s, record, index, offset)
    ensures index <= last && UpTo(s, record, index, offset) <= Whole(s, record, last)
  {
    PositionsAreWithin(s, record, last, index, offset);
    UpToInside(s, record, index, offset, |At(s, record, index).bytes|);
    UpToWholeChunk(s, record, index);
    StreamIsPrefix(s, record, index + 1, last);
  }

  lemma PositionsAreWithin(s: Store, record: Record, last: nat, index: nat, offset: nat)
    requires StoreInv(s) && FinishedAt(s, record, last) && Issuable(s, record, index, offset)
    ensures index <= last && Has(s, record, index) && offset <= |At(s, record, index).bytes|
  {
    if index > 0 {
      FinalChunkIsLast(s, record, last, index - 1);
    }
    ChunksAreContiguous(s, record, last);
  }

  /** The bytes and chunks still in front of a position of a finished stream. */
  function Remaining(s: Store, record: Record, last: nat, index: nat, offset: nat): int {
    |Whole(s, record, last)| - |UpTo(s, record, index, offset)| + last - index
  }

  lemma PollMakesProgress(s: Store, record: Record, last: nat, index: nat, offset: nat, limit: nat)
    requires StoreInv(s) && FinishedAt(s, record, last) && Issuable(s, record, index, offset) && limit >= 1
    ensures Poll(s, record, index, offset, limit).Some?
    ensures var page := Poll(s, record, index, offset, limit).value;
      page.end || Remaining(s, record, last, page.index, page.offset) < Remaining(s, record, last, index, offset)
  {
    PollAdvances(s, record, index, offset, limit);
    PositionsPrecedeTheEnd(s, record, last, index, offset);
    ChunksAreContiguous(s, record, last);
  }

  /** On a finished stream a reader reaches the end within as many polls as
      there are bytes and chunks left, and one more, whatever else is written. */
  lemma {:induction false} PollingTerminates(record: Record, stores: seq<Store>, limits: seq<nat>, r: Reading, last: nat)
    requires |stores| == |limits| > 0 && Growing(stores) && Faithful(stores[0], record, r) && !r.ended
    requires FinishedAt(stores[0], record, last)
    requires forall i :: 0 <= i < |limits| ==> limits[i] >= 1
    requires |limits| > Remaining(stores[0], record, last, r.index, r.offset)
    ensures Follow(record, stores, limits, r).Some? && Follow(record, stores, limits, r).value.ended
  {
    PollMakesProgress(stores[0], record, last, r.index, r.offset, limits[0]);
    PollAdvances(stores[0], record, r.index, r.offset, limits[0]);
    var page := Poll(stores[0], record, r.index, r.offset, limits[0]).value;
    var next := Next(r, page);
    PositionsPrecedeTheEnd(stores[0], record, last, r.index, r.offset);
    if !page.end {
      PositionsPrecedeTheEnd(stores[0], record, last, page.index, page.offset);
      FaithfulStays(stores[0], stores[1], record, next);
      RemainingStays(stores[0], stores[1], record, last, page.index, page.offset);
      PollingTerminates(record, stores[1..], limits[1..], next, last);
    } else {
      assert Follow(record, stores[1..], limits[1..], next) == Some(next);
    }
  }

  lemma RemainingStays(s: Store, t: Store, record: Record, last: nat, index: nat, offset: nat)
    requires StoreInv(s) && Grows(s, t) && FinishedAt(s, record, last) && Issuable(s, record, index, offset)
    ensures FinishedAt(t, record, last)
    ensures Remaining(t, record, last, index, offset) == Remaining(s, record, last, index, offset)
  {
    UpToStays(s, t, record, index, offset);
    StreamStays(s, t, record, last + 1);
  }
}
