/** The pager over the finished output of a foreground execution: a blob that no
    longer grows, read page by page through issued cursors. */
module SandboxOutput {
  import opened Options
  import opened SandboxStream

  /** What a result refers to. Its digest is checked on every read, so the binding
      of a record and its source determines the bytes. */
  datatype Source = Source(record: Record, ref: string, bytes: Bytes)

  datatype Cursor = Cursor(source: Source, offset: nat)
  datatype SavedCursor = SavedCursor(source: Source, offset: nat)
  datatype PagePlace = PagePlace(source: Source, offset: nat, limit: nat)

  /** The durable artifacts; put-if-absent. */
  datatype Artifacts = Artifacts(cursors: map<Cursor, SavedCursor>, pages: map<PagePlace, Bytes>)

  /** A page of a blob is a page of a stream that consists of one final chunk. */
  function Turn(bytes: Bytes, offset: nat, limit: nat): Option<Page> {
    PageFrom(Some(Chunk(0, 0, bytes, true, None)), 0, offset, limit)
  }

  lemma TurnContinues(bytes: Bytes, offset: nat, limit: nat)
    requires offset <= |bytes|
    ensures Turn(bytes, offset, limit).Some?
    ensures var page := Turn(bytes, offset, limit).value;
      && offset <= page.offset <= |bytes| && |page.bytes| <= limit
      && bytes[..offset] + page.bytes == bytes[..page.offset]
      && (page.end <==> page.offset == |bytes|)
      && (limit >= 1 && !page.end ==> offset < page.offset)
  {
  }

  /** What a reader has, and where its cursor stands. */
  datatype Progress = Progress(bytes: Bytes, offset: nat, ended: bool)

  const UNOPENED := Progress([], 0, false)

  /** Follow the cursors, each poll with its own limit. */
  function ReadOn(bytes: Bytes, limits: seq<nat>, r: Progress): Option<Progress> {
    if limits == [] || r.ended then Some(r)
    else
      match Turn(bytes, r.offset, limits[0])
      case None => None
      case Some(page) => ReadOn(bytes, limits[1..], Progress(r.bytes + page.bytes, page.offset, page.end))
  }

  predicate OnTrack(bytes: Bytes, r: Progress) {
    r.offset <= |bytes| && r.bytes == bytes[..r.offset] && (r.ended ==> r.offset == |bytes|)
  }

  lemma {:induction false} PagesStayOnTrack(bytes: Bytes, limits: seq<nat>, r: Progress)
    requires OnTrack(bytes, r)
    ensures ReadOn(bytes, limits, r).Some? && OnTrack(bytes, ReadOn(bytes, limits, r).value)
    decreases |limits|
  {
    if limits != [] && !r.ended {
      TurnContinues(bytes, r.offset, limits[0]);
      var page := Turn(bytes, r.offset, limits[0]).value;
      PagesStayOnTrack(bytes, limits[1..], Progress(r.bytes + page.bytes, page.offset, page.end));
    }
  }

  /** No cursor is ever refused, the pages are the stored bytes up to the cursor,
      and all of them once the end is reported. */
  lemma PagesAreTheOutput(bytes: Bytes, limits: seq<nat>)
    ensures ReadOn(bytes, limits, UNOPENED).Some?
    ensures var r := ReadOn(bytes, limits, UNOPENED).value;
      r.bytes <= bytes && (r.ended ==> r.bytes == bytes)
  {
    PagesStayOnTrack(bytes, limits, UNOPENED);
  }

  /** More polls than there are bytes left reach the end; an empty output ends at once. */
  lemma {:induction false} PagingTerminates(bytes: Bytes, limits: seq<nat>, r: Progress)
    requires OnTrack(bytes, r) && |limits| > |bytes| - r.offset
    requires forall i :: 0 <= i < |limits| ==> limits[i] >= 1
    ensures ReadOn(bytes, limits, r).Some? && ReadOn(bytes, limits, r).value.ended
    decreases |limits|
  {
    if !r.ended {
      TurnContinues(bytes, r.offset, limits[0]);
      var page := Turn(bytes, r.offset, limits[0]).value;
      var next := Progress(r.bytes + page.bytes, page.offset, page.end);
      if page.end {
        assert ReadOn(bytes, limits[1..], next) == Some(next);
      } else {
        PagingTerminates(bytes, limits[1..], next);
      }
    }
  }

  // -------------------------------------------------------------- the service

  datatype Error = ResourceChanged | CursorUnavailable | CursorChanged | OutputChanged | PortFailed
  datatype Result<+T> = Ok(value: T) | Err(error: Error)

  datatype Query = Query(resourceRef: Option<string>, cursor: Option<Cursor>, limit: nat)
  datatype Reply = Reply(page: Bytes, next: Option<Cursor>, end: bool)

  /** Only positions inside the output were issued, and pages are what they name. */
  ghost predicate ArtifactsInv(a: Artifacts) {
    && (forall key :: key in a.cursors ==>
          a.cursors[key] == SavedCursor(key.source, key.offset) && key.offset < |key.source.bytes|)
    && (forall key :: key in a.pages ==>
          Turn(key.source.bytes, key.offset, key.limit).Some?
          && a.pages[key] == Turn(key.source.bytes, key.offset, key.limit).value.bytes)
  }

  ghost predicate ArtifactsGrow(a: Artifacts, b: Artifacts) {
    && (forall key :: key in a.cursors ==> key in b.cursors && b.cursors[key] == a.cursors[key])
    && (forall key :: key in a.pages ==> key in b.pages && b.pages[key] == a.pages[key])
  }

  class ProductionSandboxOutput {
    var artifacts: Artifacts
    /** No port fails of itself, and the payload is intact. */
    const reliable: bool

    constructor (reliable: bool)
      ensures artifacts == Artifacts(map[], map[]) && this.reliable == reliable
    {
      artifacts, this.reliable := Artifacts(map[], map[]), reliable;
    }

    /** Any number of pages served by others. */
    method Yield()
      requires ArtifactsInv(artifacts)
      modifies this
      ensures ArtifactsInv(artifacts) && ArtifactsGrow(old(artifacts), artifacts)
    {
    }

    method Fails() returns (fault: bool)
      ensures fault ==> !reliable
    {
      fault := *;
      fault := fault && !reliable;
    }

    method CommitCursor(key: Cursor) returns (ok: bool)
      requires ArtifactsInv(artifacts) && key.offset < |key.source.bytes|
      modifies this
      ensures ArtifactsInv(artifacts) && ArtifactsGrow(old(artifacts), artifacts)
      ensures ok ==> key in artifacts.cursors
      ensures reliable ==> ok
    {
      Yield();
      var fault := Fails();
      if fault { return false; }
      if key !in artifacts.cursors {
        artifacts := artifacts.(cursors := artifacts.cursors[key := SavedCursor(key.source, key.offset)]);
      }
      fault := Fails();
      return !fault;
    }

    method CommitPage(key: PagePlace, page: Bytes) returns (ok: bool)
      requires ArtifactsInv(artifacts) && Turn(key.source.bytes, key.offset, key.limit).Some?
      requires page == Turn(key.source.bytes, key.offset, key.limit).value.bytes
      modifies this
      ensures ArtifactsInv(artifacts) && ArtifactsGrow(old(artifacts), artifacts)
      ensures ok ==> key in artifacts.pages && artifacts.pages[key] == page
      ensures reliable ==> ok
    {
      Yield();
      var fault := Fails();
      if fault { return false; }
      if key in artifacts.pages && artifacts.pages[key] != page { return false; }
      artifacts := artifacts.(pages := artifacts.pages[key := page]);
      fault := Fails();
      return !fault;
    }

    /** Where a query's cursor points in the output. */
    method Resolve(source: Source, cursor: Option<Cursor>) returns (r: Result<nat>)
      requires ArtifactsInv(artifacts)
      modifies this
      ensures ArtifactsInv(artifacts) && ArtifactsGrow(old(artifacts), artifacts)
      ensures r.Ok? ==> r.value == Start(cursor) <= |source.bytes|
      ensures r.Ok? && cursor.Some? ==> cursor.value.source == source && cursor.value in artifacts.cursors
      ensures cursor.None? ==> r == Ok(0)
      ensures r.Err? ==> r.error == CursorUnavailable || r.error == CursorChanged || r.error == PortFailed
      ensures reliable && cursor.Some? && cursor.value.source == source && cursor.value in old(artifacts).cursors ==> r.Ok?
    {
      if cursor.None? { return Ok(0); }
      Yield();
      var fault := Fails();
      if fault { return Err(PortFailed); }
      if cursor.value !in artifacts.cursors { return Err(CursorUnavailable); }
      var saved := artifacts.cursors[cursor.value];
      if saved.source != source || saved.offset > |source.bytes| || cursor.value != Cursor(source, saved.offset) {
        return Err(CursorChanged);
      }
      return Ok(saved.offset);
    }

    /** The page behind a cursor, kept with the cursor that follows it. `result`
        is the output the record refers to, if it has one; `payload` what the
        payload store holds for it. There is nothing to read before a result. */
    method Output(record: Record, result: Option<Source>, payload: Option<Bytes>, query: Query)
      returns (r: Result<Option<Reply>>)
      requires ArtifactsInv(artifacts) && (result.Some? ==> result.value.record == record)
      modifies this
      ensures ArtifactsInv(artifacts) && ArtifactsGrow(old(artifacts), artifacts)
      ensures query.resourceRef != record.resourceRef <==> r == Err(ResourceChanged)
      ensures query.resourceRef == record.resourceRef && result.None? ==>
                r == if query.cursor.None? then Ok(None) else Err(CursorUnavailable)
      ensures r.Ok? && r.value.Some? ==>
                && result.Some? && payload == Some(result.value.bytes)
                && (query.cursor.Some? ==>
                      query.cursor.value.source == result.value && query.cursor.value in artifacts.cursors)
                && Shows(result.value, Turn(result.value.bytes, Start(query.cursor), query.limit), r.value.value)
                && (r.value.value.next.Some? ==> r.value.value.next.value in artifacts.cursors)
      ensures r.Ok? && result.Some? ==> r.value.Some?
      // an issued cursor is refused only if something failed
      ensures reliable && query.resourceRef == record.resourceRef && result.Some? && payload == Some(result.value.bytes)
              && (query.cursor.Some? ==>
                    query.cursor.value.source == result.value && query.cursor.value in old(artifacts).cursors) ==>
                r.Ok?
    {
      if query.resourceRef != record.resourceRef { return Err(ResourceChanged); }
      if result.None? {
        return if query.cursor.Some? then Err(CursorUnavailable) else Ok(None);
      }
      var source := result.value;
      if payload != Some(source.bytes) { return Err(OutputChanged); }
      var start := Resolve(source, query.cursor);
      if start.Err? { return Err(start.error); }
      r := Serve(source, start.value, query.limit);
    }

    method Serve(source: Source, offset: nat, limit: nat) returns (r: Result<Option<Reply>>)
      requires ArtifactsInv(artifacts) && offset <= |source.bytes|
      modifies this
      ensures ArtifactsInv(artifacts) && ArtifactsGrow(old(artifacts), artifacts)
      ensures r.Ok? ==>
                && r.value.Some? && Shows(source, Turn(source.bytes, offset, limit), r.value.value)
                && (r.value.value.next.Some? ==> r.value.value.next.value in artifacts.cursors)
      ensures r.Err? ==> r.error == PortFailed && !reliable
    {
      TurnContinues(source.bytes, offset, limit);
      var page := Turn(source.bytes, offset, limit).value;
      var next := if page.end then None else Some(Cursor(source, page.offset));
      if next.Some? {
        var saved := CommitCursor(next.value);
        if !saved { return Err(PortFailed); }
      }
      var kept := CommitPage(PagePlace(source, offset, limit), page.bytes);
      if !kept { return Err(PortFailed); }
      return Ok(Some(Reply(page.bytes, next, page.end)));
    }
  }

  function Start(cursor: Option<Cursor>): nat {
    if cursor.Some? then cursor.value.offset else 0
  }

  predicate Shows(source: Source, page: Option<Page>, reply: Reply) {
    && page.Some? && reply.page == page.value.bytes && reply.end == page.value.end
    && reply.next == if page.value.end then None else Some(Cursor(source, page.value.offset))
  }
}
