/**
 Keyset paging over the event table, and the export that reads it page by page.

 Events are ordered by creation time and then by identifier, compared character by character.
 */
module EventPaging {
  import opened Wrappers
  import opened Sets

  const PAGE_SIZE := 200

  datatype Event = Event(created: int, id: string)

  /** A table: identifiers are unique and not empty. */
  ghost predicate Table(t: set<Event>) {
    (forall e :: e in t ==> e.id != "") && forall e, f :: e in t && f in t && e.id == f.id ==> e == f
  }

  predicate LexLess(a: string, b: string) {
    if b == "" then false
    else if a == "" then true
    else a[0] < b[0] || (a[0] == b[0] && LexLess(a[1..], b[1..]))
  }

  predicate Before(a: Event, b: Event) { a.created < b.created || (a.created == b.created && LexLess(a.id, b.id)) }

  lemma {:induction false} LexIsTotal(a: string, b: string)
    ensures a == b || LexLess(a, b) || LexLess(b, a)
    ensures LexLess(a, b) ==> a != b && !LexLess(b, a)
    decreases |a|
  {
    if a == "" || b == "" {
    } else {
      LexIsTotal(a[1..], b[1..]);
      assert a == [a[0]] + a[1..] && b == [b[0]] + b[1..];
    }
  }

  lemma {:induction false} LexIsTransitive(a: string, b: string, c: string)
    requires LexLess(a, b) && LexLess(b, c)
    ensures LexLess(a, c)
    decreases |a|
  {
    if a == "" || a[0] < b[0] || b[0] < c[0] {
    } else {
      LexIsTransitive(a[1..], b[1..], c[1..]);
    }
  }

  lemma BeforeIsTotal(a: Event, b: Event)
    ensures a == b || Before(a, b) || Before(b, a)
    ensures Before(a, b) ==> a != b && !Before(b, a)
  {
    LexIsTotal(a.id, b.id);
  }

  lemma BeforeIsTransitive(a: Event, b: Event, c: Event)
    requires Before(a, b) && Before(b, c)
    ensures Before(a, c)
  {
    if a.created == b.created == c.created {
      LexIsTransitive(a.id, b.id, c.id);
    }
  }

  ghost predicate Ascending(es: seq<Event>) { forall i, j :: 0 <= i < j < |es| ==> Before(es[i], es[j]) }

  /** The full list, each event once. */
  ghost predicate Sorts(es: seq<Event>, t: set<Event>) { Ascending(es) && Members(es) == t }

  lemma {:induction false} SortedOnce(a: seq<Event>, b: seq<Event>, t: set<Event>)
    requires Sorts(a, t) && Sorts(b, t)
    ensures a == b
    decreases |a|
  {
    hide Before;
    if a != [] && b != [] {
      assert a[0] in Members(b) && b[0] in Members(a);
      BeforeIsTotal(a[0], b[0]);
      RestSorts(a, t);
      RestSorts(b, t);
      SortedOnce(a[1..], b[1..], t - {a[0]});
      assert a == [a[0]] + a[1..] && b == [b[0]] + b[1..];
    } else {
      assert forall es: seq<Event> :: es != [] ==> es[0] in Members(es);
    }
  }

  lemma RestSorts(es: seq<Event>, t: set<Event>)
    requires es != [] && Sorts(es, t)
    ensures Sorts(es[1..], t - {es[0]})
  {
    hide Before;
    forall e
      ensures e in Members(es[1..]) <==> e in t - {es[0]}
    {
      if e in t && e != es[0] {
        var i :| 0 <= i < |es| && es[i] == e;
        assert es[1..][i - 1] == e;
      } else if e in Members(es[1..]) {
        var i :| 0 <= i < |es| - 1 && es[1..][i] == e;
        BeforeIsTotal(es[0], es[i + 1]);
      }
    }
  }

  // ---------------------------------------------------------------- one page

  ghost function After(t: set<Event>, cursor: Option<Event>): set<Event> {
    set e | e in t && (cursor.None? || Before(cursor.value, e))
  }

  /** The first `limit` events of `rest`, in order. */
  ghost predicate IsPage(page: seq<Event>, rest: set<Event>, limit: nat) {
    && Ascending(page) && Members(page) <= rest
    && |page| == (if limit < |rest| then limit else |rest|)
    && forall e, f :: e in page && f in rest && f !in Members(page) ==> Before(e, f)
  }

  lemma {:induction false} LeastExists(rest: set<Event>)
    requires rest != {}
    ensures exists e :: e in rest && forall f :: f in rest && f != e ==> Before(e, f)
    decreases |rest|
  {
    hide Before;
    var e :| e in rest;
    if rest == {e} {
      assert forall f :: f in rest && f != e ==> Before(e, f);
    } else {
      LeastExists(rest - {e});
      var least :| least in rest - {e} && forall f :: f in rest - {e} && f != least ==> Before(least, f);
      LeastOfMore(rest, e, least);
    }
  }

  lemma LeastOfMore(rest: set<Event>, e: Event, least: Event)
    requires e in rest && least in rest - {e} && forall f :: f in rest - {e} && f != least ==> Before(least, f)
    ensures exists g :: g in rest && forall f :: f in rest && f != g ==> Before(g, f)
  {
    hide Before;
    BeforeIsTotal(e, least);
    var g := if Before(e, least) then e else least;
    forall f | f in rest && f != g
      ensures Before(g, f)
    {
      if g == e && f != least {
        BeforeIsTransitive(e, least, f);
      }
    }
  }

  lemma PickNext(page: seq<Event>, rest: set<Event>, n: nat, e: Event)
    requires IsPage(page, rest, n) && |page| == n && e in rest - Members(page)
    requires forall f :: f in rest - Members(page) && f != e ==> Before(e, f)
    ensures IsPage(page + [e], rest, n + 1)
  {
    hide Before;
    var more := page + [e];
    assert forall i :: 0 <= i < |more| ==> more[i] == if i < |page| then page[i] else e;
    forall i | 0 <= i < |page|
      ensures Before(page[i], e)
    {
      assert page[i] in page;
    }
    MembersMore(page, e);
    assert Members(page) + {e} <= rest;
    PageSize(page, rest, n);
    PageFits(more, rest);
  }

  lemma MembersMore(page: seq<Event>, e: Event)
    ensures Members(page + [e]) == Members(page) + {e}
  {
    var more := page + [e];
    assert more[|page|] == e;
    assert forall i :: 0 <= i < |more| ==> more[i] == if i < |page| then page[i] else e;
    assert forall i :: 0 <= i < |page| ==> more[i] == page[i];
  }

  lemma PageSize(page: seq<Event>, rest: set<Event>, n: nat)
    requires IsPage(page, rest, n)
    ensures |Members(page)| == |page|
  {
    DistinctSize(page);
  }

  lemma PageFits(page: seq<Event>, rest: set<Event>)
    requires Ascending(page) && Members(page) <= rest
    ensures |page| <= |rest|
  {
    DistinctSize(page);
    Sets.SmallerSet(Members(page), rest);
  }

  lemma {:induction false} DistinctSize(page: seq<Event>)
    requires Ascending(page)
    ensures |Members(page)| == |page|
    decreases |page|
  {
    hide Before;
    if page == [] {
    } else {
      RestSorts(page, Members(page));
      DistinctSize(page[1..]);
      assert page[0] in Members(page);
    }
  }

  /** The query, with its order and limit. */
  method Query(rest: set<Event>, limit: nat) returns (page: seq<Event>)
    ensures IsPage(page, rest, limit)
  {
    hide IsPage, Before, Members;
    page := [];
    var left := rest;
    EmptyPage(rest);
    while left != {} && |page| < limit
      invariant |page| <= limit && left == rest - Members(page) && IsPage(page, rest, |page|)
      decreases |left|
    {
      LeastExists(left);
      var e :| e in left && forall f :: f in left && f != e ==> Before(e, f);
      PickNext(page, rest, |page|, e);
      MembersMore(page, e);
      page := page + [e];
      left := left - {e};
    }
    FullPage(page, rest, limit);
  }

  lemma EmptyPage(rest: set<Event>)
    ensures IsPage([], rest, 0) && Members<Event>([]) == {}
  {
  }

  lemma FullPage(page: seq<Event>, rest: set<Event>, limit: nat)
    requires IsPage(page, rest, |page|) && |page| <= limit && (rest - Members(page) == {} || |page| == limit)
    ensures IsPage(page, rest, limit)
  {
    DistinctSize(page);
    if |page| < limit {
      assert rest == Members(page) + (rest - Members(page));
    }
  }

  datatype Error = BadLimit | NoSuchCursor | Unrenderable(event: Event)

  /** One page after a cursor, and the next cursor, empty on the last page. */
  method List(t: set<Event>, cursor: string, limit: int) returns (r: Result<(seq<Event>, string), Error>)
    requires Table(t)
    ensures r.Err? <==> !(1 <= limit <= 1000) || (cursor != "" && forall e :: e in t ==> e.id != cursor)
    ensures r.Ok? ==>
              exists at: Option<Event> ::
                && (if cursor == "" then at.None? else at.Some? && at.value in t && at.value.id == cursor)
                && IsPage(r.value.0, After(t, at), limit)
                && (if |After(t, at)| > limit then |r.value.0| > 0 && r.value.1 == r.value.0[|r.value.0| - 1].id
                    else r.value.1 == "")
  {
    hide IsPage, Before, Members;
    if limit <= 0 || limit > 1000 {
      return Err(BadLimit);
    }
    var at: Option<Event> := None;
    var rest := t;
    if cursor != "" {
      if e :| e in t && e.id == cursor {
        at := Some(e);
        rest := set f | f in t && Before(e, f);
      } else {
        return Err(NoSuchCursor);
      }
    }
    assert rest == After(t, at);
    var events := Query(rest, limit + 1);
    PageLength(events, rest, limit + 1);
    var next := "";
    if |events| > limit {
      FirstOf(events, rest, limit);
      events := events[..limit];
      next := events[limit - 1].id;
    } else {
      WholePage(events, rest, limit);
    }
    r := Ok((events, next));
  }

  lemma PageLength(page: seq<Event>, rest: set<Event>, limit: nat)
    requires IsPage(page, rest, limit)
    ensures |page| == if limit < |rest| then limit else |rest|
  {
  }

  lemma WholePage(page: seq<Event>, rest: set<Event>, limit: nat)
    requires IsPage(page, rest, limit + 1) && |page| <= limit
    ensures IsPage(page, rest, limit)
  {
  }

  lemma FirstOf(page: seq<Event>, rest: set<Event>, limit: nat)
    requires IsPage(page, rest, limit + 1) && |page| == limit + 1
    ensures IsPage(page[..limit], rest, limit)
  {
  }

  // ---------------------------------------------------------------- the export

  /** What has been written so far, and that the rest comes after it. */
  ghost predicate Progress(written: seq<Event>, t: set<Event>, cursor: Option<Event>) {
    && Sorts(written, t - After(t, cursor))
    && (if written == [] then cursor.None? else cursor == Some(written[|written| - 1]))
  }

  lemma PageJoins(written: seq<Event>, t: set<Event>, cursor: Option<Event>, page: seq<Event>, limit: nat)
    requires Progress(written, t, cursor) && IsPage(page, After(t, cursor), limit)
    ensures Ascending(written + page) && Members(written + page) == (t - After(t, cursor)) + Members(page)
    ensures Members(page) <= After(t, cursor) <= t && |page| == |Members(page)|
  {
    hide Before;
    AscendingJoined(written, t, cursor, page);
    MembersJoined(written, page);
    RestInTable(t, cursor);
    DistinctSize(page);
  }

  lemma SetMoves(t: set<Event>, rest: set<Event>, page: set<Event>)
    requires page <= rest <= t
    ensures t - (rest - page) == (t - rest) + page && (t - rest) + rest == t
    ensures page != {} ==> rest - page < rest
  {
  }

  /** A page that is not the last moves the cursor on. */
  lemma FullPageMovesOn(written: seq<Event>, t: set<Event>, cursor: Option<Event>, page: seq<Event>, limit: nat)
    requires Progress(written, t, cursor) && IsPage(page, After(t, cursor), limit) && 0 < limit < |After(t, cursor)|
    ensures |page| == limit && Progress(written + page, t, Some(page[|page| - 1]))
    ensures After(t, Some(page[|page| - 1])) < After(t, cursor)
  {
    hide Before, After, Ascending, Members, IsPage;
    PageJoins(written, t, cursor, page, limit);
    PageLength(page, After(t, cursor), limit);
    AfterLast(t, cursor, page, limit);
    LastIsMember(page);
    SetMoves(t, After(t, cursor), Members(page));
    var all := written + page;
    assert all != [] && all[|all| - 1] == page[|page| - 1];
  }

  /** The last page completes the list. */
  lemma LastPageCompletes(written: seq<Event>, t: set<Event>, cursor: Option<Event>, page: seq<Event>, limit: nat)
    requires Progress(written, t, cursor) && IsPage(page, After(t, cursor), limit) && |After(t, cursor)| <= limit
    ensures Sorts(written + page, t)
  {
    hide Before, After, Ascending, Members, IsPage;
    PageJoins(written, t, cursor, page, limit);
    PageLength(page, After(t, cursor), limit);
    Sets.EqualSets(Members(page), After(t, cursor));
    SetMoves(t, After(t, cursor), Members(page));
  }

  lemma RestInTable(t: set<Event>, cursor: Option<Event>)
    ensures After(t, cursor) <= t
  {
  }

  lemma LastIsMember(page: seq<Event>)
    requires page != []
    ensures page[|page| - 1] in Members(page)
  {
  }

  lemma MembersJoined(a: seq<Event>, b: seq<Event>)
    ensures Members(a + b) == Members(a) + Members(b)
  {
    var all := a + b;
    assert forall i :: 0 <= i < |a| ==> all[i] == a[i];
    assert forall i :: 0 <= i < |b| ==> all[|a| + i] == b[i];
    assert forall i :: 0 <= i < |all| ==> all[i] == if i < |a| then a[i] else b[i - |a|];
  }

  lemma AscendingJoined(written: seq<Event>, t: set<Event>, cursor: Option<Event>, page: seq<Event>)
    requires Progress(written, t, cursor) && Ascending(page) && Members(page) <= After(t, cursor)
    ensures Ascending(written + page)
  {
    hide Before;
    var n, all := |written|, written + page;
    forall i, j | 0 <= i < j < |all|
      ensures Before(all[i], all[j])
    {
      if i < n <= j {
        assert page[j - n] in Members(page);
        assert Before(written[n - 1], page[j - n]);
        if i < n - 1 {
          BeforeIsTransitive(written[i], written[n - 1], page[j - n]);
        }
      }
    }
  }

  lemma AfterLast(t: set<Event>, cursor: Option<Event>, page: seq<Event>, limit: nat)
    requires IsPage(page, After(t, cursor), limit) && page != []
    ensures After(t, Some(page[|page| - 1])) == After(t, cursor) - Members(page)
  {
    hide Before;
    var rest, last := After(t, cursor), page[|page| - 1];
    forall e
      ensures e in After(t, Some(last)) <==> e in rest - Members(page)
    {
      assert last in Members(page) && last in page;
      if e in Members(page) {
        var i :| 0 <= i < |page| && page[i] == e;
        BeforeIsTotal(e, last);
      } else if e in t && Before(last, e) && cursor.Some? {
        BeforeIsTransitive(cursor.value, last, e);
      }
    }
  }

  ghost predicate Renders(lines: seq<string>, es: seq<Event>, render: Event -> Option<string>) {
    |lines| == |es| && forall i :: 0 <= i < |es| ==> render(es[i]) == Some(lines[i])
  }

  /** The lines as they are written. */
  function Content(lines: seq<string>): string {
    if lines == [] then "" else Content(lines[..|lines| - 1]) + lines[|lines| - 1] + "\n"
  }

  /** Line by line: each ends with a newline, and they follow each other. */
  lemma {:induction false} ContentAppends(a: seq<string>, b: seq<string>)
    ensures Content(a + b) == Content(a) + Content(b)
    decreases |b|
  {
    if b == [] {
      assert a + b == a;
    } else {
      var init := b[..|b| - 1];
      ContentAppends(a, init);
      assert (a + b)[..|a + b| - 1] == a + init;
    }
  }

  lemma OneLine(line: string)
    ensures Content([line]) == line + ['\n']
  {
    assert [line][..0] == [] && Content([]) == "";
  }

  /** A buffered file: what was written, and how much of it has reached the file. */
  datatype Buffered = Buffered(written: string, flushed: nat)

  /** Writing may flush any part of what is buffered; a flush takes all of it. */
  method Write(w: Buffered, line: string) returns (next: Buffered)
    requires w.flushed <= |w.written|
    ensures next.written == w.written + line + "\n" && w.flushed <= next.flushed <= |next.written|
  {
    var flushed: nat := *;
    next := Buffered(w.written + line + "\n", w.flushed);
    if w.flushed <= flushed <= |next.written| {
      next := next.(flushed := flushed);
    }
  }

  ghost predicate Holds(w: Buffered, lines: seq<string>) { w.written == Content(lines) && w.flushed <= |w.written| }

  /** The lines of one page, up to the first event that cannot be rendered. */
  method WritePage(events: seq<Event>, render: Event -> Option<string>, lines: seq<string>, w: Buffered,
      ghost written: seq<Event>)
    returns (all: seq<string>, next: Buffered, bad: Option<nat>)
    requires Renders(lines, written, render) && Holds(w, lines)
    ensures Holds(next, all)
    ensures bad.None? ==> Renders(all, written + events, render)
    ensures bad.Some? ==>
        bad.value < |events| && render(events[bad.value]) == None && Renders(all, written + events[..bad.value], render)
  {
    all, next := lines, w;
    assert written + events[..0] == written;
    for i := 0 to |events|
      invariant Renders(all, written + events[..i], render) && Holds(next, all)
    {
      var line := render(events[i]);
      if line == None {
        return all, next, Some(i);
      }
      assert written + events[..i + 1] == written + events[..i] + [events[i]];
      next := Write(next, line.value);
      assert (all + [line.value])[..|all|] == all;
      all := all + [line.value];
    }
    assert events[..|events|] == events;
    bad := None;
  }

  /**
   The export of an unchanging table: it ends, and writes one line for each event, in order, each event once, unless an
   event cannot be rendered; then it has written the lines of all events before that one, of which the file holds some
   beginning, because nothing flushes the rest.
   */
  method Jsonl(t: set<Event>, render: Event -> Option<string>)
      returns (r: Result<(), Error>, lines: seq<string>, file: string)
    requires Table(t)
    ensures if r.Ok? then file == Content(lines) else file <= Content(lines)
    ensures r.Ok? ==> exists all :: Sorts(all, t) && Renders(lines, all, render)
    ensures r.Err? ==> r.error.Unrenderable? && r.error.event in t && render(r.error.event) == None
    ensures r.Err? ==>
              exists some ::
                Sorts(some, t - After(t, Some(r.error.event)) - {r.error.event}) && Renders(lines, some, render)
  {
    hide IsPage, After, Before, Sorts, Members;
    lines := [];
    var w := Buffered("", 0);
    var cursor := "";
    ghost var at: Option<Event> := None;
    ghost var written: seq<Event> := [];
    NothingWritten(t);
    while true
      invariant Renders(lines, written, render) && Progress(written, t, at)
      invariant Holds(w, lines)
      invariant if cursor == "" then at.None? else at.Some? && at.value in t && at.value.id == cursor
      decreases After(t, at)
    {
      var page := List(t, cursor, PAGE_SIZE);
      assert page.Ok?;
      var events, next := page.value.0, page.value.1;
      SameCursor(t, cursor, at);
      var bad;
      lines, w, bad := WritePage(events, render, lines, w, written);
      if bad.Some? {
        WrittenBefore(written, t, at, events, PAGE_SIZE, bad.value);
        return Err(Unrenderable(events[bad.value])), lines, w.written[..w.flushed];
      }
      PageInTable(t, at, events, PAGE_SIZE);
      if next == "" {
        LastPageCompletes(written, t, at, events, PAGE_SIZE);
        written := written + events;
        break;
      }
      FullPageMovesOn(written, t, at, events, PAGE_SIZE);
      written := written + events;
      cursor := next;
      at := Some(events[|events| - 1]);
    }
    return Ok(()), lines, w.written;
  }

  lemma NothingWritten(t: set<Event>)
    ensures Progress([], t, None)
  {
  }

  lemma SameCursor(t: set<Event>, cursor: string, at: Option<Event>)
    requires Table(t) && if cursor == "" then at.None? else at.Some? && at.value in t && at.value.id == cursor
    ensures forall other: Option<Event> ::
              (if cursor == "" then other.None? else other.Some? && other.value in t && other.value.id == cursor) ==>
                  other == at
  {
  }

  lemma PageInTable(t: set<Event>, at: Option<Event>, page: seq<Event>, limit: nat)
    requires Table(t) && IsPage(page, After(t, at), limit)
    ensures forall i :: 0 <= i < |page| ==> page[i] in t && page[i].id != ""
  {
    assert forall i :: 0 <= i < |page| ==> page[i] in Members(page);
  }

  /** What is written before the `i`-th event of a page is everything before that event. */
  lemma WrittenBefore(written: seq<Event>, t: set<Event>, at: Option<Event>, page: seq<Event>, limit: nat, i: nat)
    requires Progress(written, t, at) && IsPage(page, After(t, at), limit) && i < |page|
    ensures page[i] in t && Sorts(written + page[..i], t - After(t, Some(page[i])) - {page[i]})
  {
    hide Before;
    var e, some := page[i], written + page[..i];
    AscendingJoined(written, t, at, page);
    MembersJoined(written, page[..i]);
    assert e in Members(page);
    forall f
      ensures f in Members(some) <==> f in t - After(t, Some(e)) - {e}
    {
      BeforeIsTotal(e, f);
      if f in Members(page[..i]) {
        var j :| 0 <= j < i && page[j] == f;
        assert f in Members(page) && Before(page[j], page[i]);
      } else if f in Members(page) {
        var j :| 0 <= j < |page| && page[j] == f;
        assert j < i ==> page[..i][j] == f;
        assert j > i ==> Before(page[i], page[j]);
      } else if f in After(t, at) {
        assert e in page;
      } else if f in t {
        assert f in Members(written);
        var j :| 0 <= j < |written| && written[j] == f;
        var all := written + page;
        assert Before(all[j], all[|written| + i]);
      }
    }
    assert Ascending(some) by {
      var all := written + page;
      assert forall j :: 0 <= j < |some| ==> some[j] == all[j];
    }
  }

  // ---------------------------------------------------------------- a table that changes between pages

  datatype Page = Page(table: set<Event>, events: seq<Event>)

  /** Pages read one after another, each from the table as it is then; every one but the last is full. */
  ghost predicate Reading(pages: seq<Page>, cursor: Option<Event>, limit: nat)
    decreases |pages|
  {
    pages != [] ==>
      var p := pages[0];
      && IsPage(p.events, After(p.table, cursor), limit)
      && (|pages| > 1 ==> |After(p.table, cursor)| > limit && p.events != [])
      && (|pages| > 1 ==> Reading(pages[1..], Some(p.events[|p.events| - 1]), limit))
  }

  ghost function AllOf(pages: seq<Page>): seq<Event>
    decreases |pages|
  {
    if pages == [] then [] else pages[0].events + AllOf(pages[1..])
  }

  ghost predicate Beyond(cursor: Option<Event>, e: Event) { cursor.Some? ==> Before(cursor.value, e) }

  ghost predicate Throughout(pages: seq<Page>, e: Event) { forall i :: 0 <= i < |pages| ==> e in pages[i].table }

  /**
   Whatever comes and goes meanwhile, no event is listed twice or out of order, and none that was there throughout is
   missed.
   */
  lemma {:induction false} NothingTwiceNothingMissed(pages: seq<Page>, cursor: Option<Event>, limit: nat)
    requires Reading(pages, cursor, limit) && pages != []
    ensures Ascending(AllOf(pages)) && forall e :: e in AllOf(pages) ==> Beyond(cursor, e)
    ensures |After(pages[|pages| - 1].table, LastCursor(pages, cursor))| <= limit ==>
              forall e :: Throughout(pages, e) && Beyond(cursor, e) ==> e in AllOf(pages)
    decreases |pages|
  {
    hide Before, IsPage, After, Ascending, Beyond, Throughout;
    var p := pages[0];
    PageFacts(p, cursor, limit);
    forall e | Throughout(pages, e)
      ensures e in p.table && Throughout(pages[1..], e)
    {
      InFirst(pages, e);
    }
    if |pages| == 1 {
      assert AllOf(pages) == p.events + AllOf([]) == p.events;
    } else {
      NothingTwiceNothingMissed(pages[1..], Some(p.events[|p.events| - 1]), limit);
      PageThenRest(p, cursor, limit, AllOf(pages[1..]));
    }
  }

  /** A full page before everything that comes after it. */
  lemma PageThenRest(p: Page, cursor: Option<Event>, limit: nat, tail: seq<Event>)
    requires IsPage(p.events, After(p.table, cursor), limit) && p.events != [] && Ascending(tail)
    requires forall e :: e in tail ==> Beyond(Some(p.events[|p.events| - 1]), e)
    ensures Ascending(p.events + tail) && forall e :: e in p.events + tail ==> Beyond(cursor, e)
  {
    hide Before, IsPage, After, Ascending, Beyond;
    PageFacts(p, cursor, limit);
    forall e | e in tail
      ensures (forall i :: 0 <= i < |p.events| ==> Before(p.events[i], e)) && Beyond(cursor, e)
    {
      PageBefore(p, cursor, limit, e);
    }
    JoinAscending(p.events, tail);
  }

  lemma InFirst(pages: seq<Page>, e: Event)
    requires Throughout(pages, e) && pages != []
    ensures e in pages[0].table && Throughout(pages[1..], e)
  {
  }

  ghost function LastCursor(pages: seq<Page>, cursor: Option<Event>): Option<Event>
    requires pages != []
    decreases |pages|
  {
    if |pages| == 1 || pages[0].events == [] then cursor
        else LastCursor(pages[1..], Some(pages[0].events[|pages[0].events| - 1]))
  }

  lemma PageFacts(p: Page, cursor: Option<Event>, limit: nat)
    requires IsPage(p.events, After(p.table, cursor), limit)
    ensures Ascending(p.events) && forall e :: e in p.events ==> Beyond(cursor, e)
    ensures forall e :: e in p.table && Beyond(cursor, e) && e !in p.events ==>
              p.events == [] || Beyond(Some(p.events[|p.events| - 1]), e)
    ensures |After(p.table, cursor)| <= limit ==> forall e :: e in p.table && Beyond(cursor, e) ==> e in p.events
  {
    hide Before;
    var rest := After(p.table, cursor);
    forall e
      ensures e in Members(p.events) <==> e in p.events
    {
    }
    assert forall e :: e in rest <==> e in p.table && Beyond(cursor, e);
    if p.events != [] {
      assert p.events[|p.events| - 1] in p.events;
    }
    if |rest| <= limit {
      DistinctSize(p.events);
      Sets.EqualSets(Members(p.events), rest);
    }
  }

  lemma PageBefore(p: Page, cursor: Option<Event>, limit: nat, e: Event)
    requires IsPage(p.events, After(p.table, cursor), limit) && p.events != []
        && Beyond(Some(p.events[|p.events| - 1]), e)
    ensures (forall i :: 0 <= i < |p.events| ==> Before(p.events[i], e)) && Beyond(cursor, e)
  {
    hide Before;
    var last := p.events[|p.events| - 1];
    forall i | 0 <= i < |p.events|
      ensures Before(p.events[i], e)
    {
      if i < |p.events| - 1 {
        BeforeIsTransitive(p.events[i], last, e);
      }
    }
    if cursor.Some? {
      assert last in Members(p.events);
      BeforeIsTransitive(cursor.value, last, e);
    }
  }

  lemma JoinAscending(a: seq<Event>, b: seq<Event>)
    requires Ascending(a) && Ascending(b) && forall e :: e in b ==> forall i :: 0 <= i < |a| ==> Before(a[i], e)
    ensures Ascending(a + b)
  {
    hide Before;
    var all := a + b;
    forall i, j | 0 <= i < j < |all|
      ensures Before(all[i], all[j])
    {
      if i < |a| <= j {
        assert b[j - |a|] in b;
      }
    }
  }
}
