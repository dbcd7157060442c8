/** The paged listings of the chat commands (getPaginatedResponse): one
    session per user, holding the lines and the page on show; a navigation
    step moves the page, which is then clamped to the pages there are. */
module Pagination {

  const LinesPerPage := 10

  /** A user's paging session: the lines, the page on show (0-based) and
      which listing it pages through. */
  datatype PageSession = PageSession(lines: seq<string>, currentPage: int, kind: string)

  /** What one call shows: the lines of the page, the page and page count,
      and whether the Previous and Next buttons are disabled. */
  datatype PageView = PageView(shown: seq<string>, page: int, totalPages: int, backDisabled: bool, nextDisabled: bool)

  /** `Math.ceil(lines / 10)`: the fewest pages that hold the lines. */
  function PageCount(n: nat): (t: nat)
    ensures t * LinesPerPage >= n
    ensures t == 0 || (t - 1) * LinesPerPage < n
  {
    (n + LinesPerPage - 1) / LinesPerPage
  }

  /** The two clamps on the page: past the last page goes back to the last
      one, when there is one, and below the first goes to the first. With
      no lines at all only the lower clamp applies. */
  function Clamp(page: int, total: nat): (p: int)
    ensures p >= 0
    ensures total > 0 ==> p < total
    ensures 0 <= page && (total == 0 || page < total) ==> p == page
    ensures total > 0 && page >= total ==> p == total - 1
  {
    var upper := if page >= total && total > 0 then total - 1 else page;
    if upper < 0 then 0 else upper
  }

  /** `lines.slice(page * 10, page * 10 + 10)`, which stops at the end of
      the lines. */
  function Window(lines: seq<string>, page: int): (w: seq<string>)
    requires page >= 0
    ensures |w| <= LinesPerPage
    ensures page * LinesPerPage >= |lines| ==> w == []
    ensures w != [] ==> page * LinesPerPage + |w| <= |lines|
    ensures forall k :: 0 <= k < |w| ==> w[k] == lines[page * LinesPerPage + k]
    ensures page * LinesPerPage + LinesPerPage <= |lines| ==> |w| == LinesPerPage
  {
    var start := page * LinesPerPage;
    if start >= |lines| then []
    else if start + LinesPerPage <= |lines| then lines[start..start + LinesPerPage]
    else lines[start..]
  }

  /** A listing with lines never shows an empty page: the clamped page
      always starts inside the lines. */
  lemma ClampedPageNotEmpty(lines: seq<string>, page: int)
    requires |lines| > 0
    ensures |Window(lines, Clamp(page, PageCount(|lines|)))| > 0
  {
    var p := Clamp(page, PageCount(|lines|));
    assert p * LinesPerPage < |lines| by {
      assert p <= PageCount(|lines|) - 1;
    }
  }

  class Pager {
    /** userPaginationData: the sessions, by user. */
    var sessions: map<string, PageSession>

    constructor()
      ensures sessions == map[]
    {
      sessions := map[];
    }

    /** getPaginatedResponse: a call without a page change, from a user
        without a session, or for another listing starts a new session on
        page 0 with the given lines; otherwise the session's own lines are
        kept. The page moves by `pageChange` and is clamped. */
    method Show(identifier: string, kind: string, allLines: seq<string>, pageChange: int) returns (v: PageView)
      modifies this
      ensures identifier in sessions && sessions == old(sessions)[identifier := sessions[identifier]]
      ensures var restart := pageChange == 0 || identifier !in old(sessions) || old(sessions)[identifier].kind != kind;
              var s := if restart then PageSession(allLines, 0, kind) else old(sessions)[identifier];
              sessions[identifier] == s.(currentPage := Clamp(s.currentPage + pageChange, PageCount(|s.lines|)))
      ensures v.page == sessions[identifier].currentPage >= 0
      ensures v.totalPages == PageCount(|sessions[identifier].lines|)
      ensures v.totalPages > 0 ==> v.page < v.totalPages
      ensures v.shown == Window(sessions[identifier].lines, v.page)
      ensures v.backDisabled <==> v.page == 0
      ensures v.nextDisabled <==> v.page >= v.totalPages - 1
    {
      if pageChange == 0 || identifier !in sessions || sessions[identifier].kind != kind {
        sessions := sessions[identifier := PageSession(allLines, 0, kind)];
      }
      var session := sessions[identifier];
      var page := session.currentPage + pageChange;
      var totalPages := PageCount(|session.lines|);
      if page >= totalPages && totalPages > 0 {
        page := totalPages - 1;
      }
      if page < 0 {
        page := 0;
      }
      sessions := sessions[identifier := session.(currentPage := page)];
      v := PageView(Window(session.lines, page), page, totalPages, page == 0, page >= totalPages - 1);
    }
  }
}
