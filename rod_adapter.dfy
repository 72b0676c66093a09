/** The browser automator: the rewrite of a Teams meeting link into the
    deep link it navigates to, and the per-session browser, page and
    stop-signal maps that joining registers, stopping clears and the
    snapshot and stream lookups read. The browser itself is represented by
    the results its calls return, passed in as parameters. */
module Rod {
  import opened Outcomes
  import opened GoStrings

  /** The text that marks a Teams meeting link. */
  const TeamsMarker: string := "teams.live.com/meet/"

  /** The start of the deep link the automator navigates to instead. */
  const DeepLinkPrefix: string := "https://teams.live.com/_#/meet/"

  // ---- The deep-link rewrite of `JoinMeeting` ----

  /** The deep-link rewrite, step by step as `JoinMeeting` computes it with
      `strings.Contains` and `strings.Split`. */
  function RewriteMeetingUrl(url: string): (r: string)
    ensures !Contains(url, TeamsMarker) ==> r == url
    ensures Contains(url, TeamsMarker) ==> DeepLinkPrefix <= r
  {
    if !Contains(url, TeamsMarker) then url
    else
      var parts := Split(url, TeamsMarker);
      if |parts| > 1 then
        var remaining := parts[1];
        var meetingId := Split(remaining, "?")[0];
        var pVal :=
          if Contains(remaining, "p=") then
            var pParts := Split(remaining, "p=");
            if |pParts| > 1 then Split(pParts[1], "&")[0] else ""
          else "";
        DeepLinkPrefix + meetingId + "?p=" + pVal + "&anon=true"
      else url
  }

  /** The text after the first marker, up to a second marker or the end. */
  function Remaining(url: string): string
  {
    Before(After(url, TeamsMarker), TeamsMarker)
  }

  /** The meeting id: the remaining text up to its first `?`. */
  function MeetingId(url: string): string
  {
    Before(Remaining(url), "?")
  }

  /** The `p` value as the rewrite finds it: the text after the first "p="
      of the remaining text, up to the next "p=" and then up to the first
      `&`; empty when there is no "p=". */
  function PValue(url: string): string
  {
    var rem := Remaining(url);
    if Contains(rem, "p=") then Before(Before(After(rem, "p="), "p="), "&") else ""
  }

  /** A link without the marker is left as it is; any other link becomes the
      deep link to its meeting id with its `p` value and `anon=true`. */
  lemma RewriteSpec(url: string)
    ensures !Contains(url, TeamsMarker) ==> RewriteMeetingUrl(url) == url
    ensures Contains(url, TeamsMarker) ==>
              RewriteMeetingUrl(url) == DeepLinkPrefix + MeetingId(url) + "?p=" + PValue(url) + "&anon=true"
  {
    if Contains(url, TeamsMarker) {
      SplitHead(url, TeamsMarker);
      var remaining := Split(url, TeamsMarker)[1];
      assert remaining == Remaining(url);
      SplitHead(remaining, "?");
      if Contains(remaining, "p=") {
        SplitHead(remaining, "p=");
        var pParts := Split(remaining, "p=");
        SplitHead(pParts[1], "&");
      }
    }
  }

  /** Where the marker occurs, the split around it always has a second
      piece, so the guard on the number of pieces never fails. */
  lemma RewriteGuardHolds(url: string)
    requires Contains(url, TeamsMarker)
    ensures |Split(url, TeamsMarker)| > 1
  {
    SplitHead(url, TeamsMarker);
  }

  /** What the pieces of a rewritten link are: the remaining text starts
      the text after the first marker and holds no marker itself; the
      meeting id starts the remaining text and holds no `?`. */
  lemma RewritePieces(url: string)
    requires Contains(url, TeamsMarker)
    ensures Remaining(url) <= After(url, TeamsMarker)
    ensures !Contains(Remaining(url), TeamsMarker)
    ensures MeetingId(url) <= Remaining(url)
    ensures !Contains(MeetingId(url), "?")
  {
    BeforeSpec(After(url, TeamsMarker), TeamsMarker);
    BeforeSpec(Remaining(url), "?");
  }

  /** The `p` value holds no `&`. */
  lemma PValueHasNoAmpersand(url: string)
    ensures !Contains(PValue(url), "&")
  {
    var rem := Remaining(url);
    if Contains(rem, "p=") {
      BeforeSpec(Before(After(rem, "p="), "p="), "&");
    }
  }

  // ---- The `p` parameter ----

  /** `pair` is a query parameter named `key`. */
  predicate HasKey(pair: string, key: string)
  {
    key + "=" <= pair
  }

  /** The value of the first parameter named `key` among `pairs`, or "". */
  function ParamValue(pairs: seq<string>, key: string): string
  {
    if |pairs| == 0 then ""
    else if HasKey(pairs[0], key) then pairs[0][|key| + 1..]
    else ParamValue(pairs[1..], key)
  }

  /** `ParamValue` finds the first parameter with the key. */
  lemma {:induction false} ParamValueFirst(pairs: seq<string>, key: string, i: nat)
    requires i < |pairs| && HasKey(pairs[i], key)
    requires forall j :: 0 <= j < i ==> !HasKey(pairs[j], key)
    ensures ParamValue(pairs, key) == pairs[i][|key| + 1..]
    decreases i
  {
    if i > 0 {
      assert !HasKey(pairs[0], key);
      ParamValueFirst(pairs[1..], key, i - 1);
    }
  }

  /** Without a parameter with the key, `ParamValue` is empty. */
  lemma {:induction false} ParamValueAbsent(pairs: seq<string>, key: string)
    requires forall j :: 0 <= j < |pairs| ==> !HasKey(pairs[j], key)
    ensures ParamValue(pairs, key) == ""
    decreases |pairs|
  {
    if |pairs| > 0 {
      assert !HasKey(pairs[0], key);
      ParamValueAbsent(pairs[1..], key);
    }
  }

  /** The parameters of the query of the remaining text: the text after
      its first `?`, split at every `&`. */
  function QueryPairs(url: string): seq<string>
  {
    Split(After(Remaining(url), "?"), "&")
  }

  /** The deep-link rewrite with `p` read as the query parameter of that
      name: the value of the first parameter "p=..." of the query. */
  function IntendedRewrite(url: string): (r: string)
    ensures !Contains(url, TeamsMarker) ==> r == url
    ensures Contains(url, TeamsMarker) ==> DeepLinkPrefix <= r
  {
    if !Contains(url, TeamsMarker) then url
    else DeepLinkPrefix + MeetingId(url) + "?p=" + ParamValue(QueryPairs(url), "p") + "&anon=true"
  }

  /** When the `i`-th parameter of the query is the first one named `p`,
      the intended deep link carries its value. */
  lemma IntendedRewriteFindsP(url: string, i: nat)
    requires Contains(url, TeamsMarker)
    requires i < |QueryPairs(url)| && HasKey(QueryPairs(url)[i], "p")
    requires forall j :: 0 <= j < i ==> !HasKey(QueryPairs(url)[j], "p")
    ensures IntendedRewrite(url) == DeepLinkPrefix + MeetingId(url) + "?p=" + QueryPairs(url)[i][2..] + "&anon=true"
  {
    ParamValueFirst(QueryPairs(url), "p", i);
  }

  /** Without a parameter named `p`, the intended deep link carries an
      empty `p`. */
  lemma IntendedRewriteWithoutP(url: string)
    requires Contains(url, TeamsMarker)
    requires forall j :: 0 <= j < |QueryPairs(url)| ==> !HasKey(QueryPairs(url)[j], "p")
    ensures IntendedRewrite(url) == DeepLinkPrefix + MeetingId(url) + "?p=&anon=true"
  {
    ParamValueAbsent(QueryPairs(url), "p");
  }

  /** A Teams meeting link: the scheme and the marker, then `rest`. */
  function TeamsLink(rest: string): string
  {
    "https://" + TeamsMarker + rest
  }

  /** The marker of a Teams link is found right after the scheme; when
      `rest` has no `t`, no second marker cuts it short. */
  lemma TeamsLinkRemaining(rest: string)
    requires Lacks(rest, 't')
    ensures Contains(TeamsLink(rest), TeamsMarker)
    ensures Remaining(TeamsLink(rest)) == rest
  {
    var url := TeamsLink(rest);
    assert url[8..28] == TeamsMarker;
    IndexOfByChar(url, TeamsMarker, 8, 1);
    assert url[28..] == rest;
    IndexOfMissingChar(rest, TeamsMarker);
  }

  /** A piece of a link without any character the rewrite searches for:
      `t` (the first of the marker), `?`, `p` and `&`. */
  predicate Plain(s: string)
  {
    Lacks(s, 't') && Lacks(s, '?') && Lacks(s, 'p') && Lacks(s, '&')
  }

  /** The text after the marker of a link whose query has, before `p`, a
      parameter whose name ends in "p": "<id>?<name>p=<x>&p=<v>", as in
      "https://teams.live.com/meet/123?skip=1&p=abc". */
  function SkipRest(id: string, name: string, x: string, v: string): string
  {
    id + ("?" + (name + ("p=" + (x + ("&" + ("p=" + v))))))
  }

  /** Such a text has no `t`, so no second marker. */
  lemma SkipRestLacksT(id: string, name: string, x: string, v: string)
    requires Plain(id) && Plain(name) && Plain(x) && Plain(v)
    ensures Lacks(SkipRest(id, name, x, v), 't')
  {
    LacksConcat("p=", v, 't');
    LacksConcat("&", "p=" + v, 't');
    LacksConcat(x, "&" + ("p=" + v), 't');
    LacksConcat("p=", x + ("&" + ("p=" + v)), 't');
    LacksConcat(name, "p=" + (x + ("&" + ("p=" + v))), 't');
    LacksConcat("?", name + ("p=" + (x + ("&" + ("p=" + v)))), 't');
    LacksConcat(id, "?" + (name + ("p=" + (x + ("&" + ("p=" + v))))), 't');
  }

  /** The remaining text of such a link, and its meeting id. */
  lemma SkipLinkRemaining(id: string, name: string, x: string, v: string)
    requires Plain(id) && Plain(name) && Plain(x) && Plain(v)
    ensures Contains(TeamsLink(SkipRest(id, name, x, v)), TeamsMarker)
    ensures Remaining(TeamsLink(SkipRest(id, name, x, v))) == SkipRest(id, name, x, v)
    ensures MeetingId(TeamsLink(SkipRest(id, name, x, v))) == id
  {
    var query := name + ("p=" + (x + ("&" + ("p=" + v))));
    SkipRestLacksT(id, name, x, v);
    TeamsLinkRemaining(SkipRest(id, name, x, v));
    BeforeSkip(id, "?" + query, "?");
    IndexOfAtStart("?", query);
    assert id + [] == id;
  }

  /** As written, the `p` value of such a link is the value `x` of the
      parameter whose name ends in "p". */
  lemma SkipLinkPValue(id: string, name: string, x: string, v: string)
    requires Plain(id) && Plain(name) && Plain(x) && Plain(v)
    ensures PValue(TeamsLink(SkipRest(id, name, x, v))) == x
  {
    SkipLinkRemaining(id, name, x, v);
    var t5 := "p=" + v;
    var t3 := x + ("&" + t5);
    var t1 := name + ("p=" + t3);
    IndexOfAtStart("p=", t3);
    IndexOfSkip(name, "p=" + t3, "p=");
    IndexOfSkip("?", t1, "p=");
    IndexOfSkip(id, "?" + t1, "p=");
    AfterSkip(name, "p=" + t3, "p=");
    AfterSkip("?", t1, "p=");
    AfterSkip(id, "?" + t1, "p=");
    IndexOfAtStart("p=", v);
    BeforeSkip("&", t5, "p=");
    BeforeSkip(x, "&" + t5, "p=");
    IndexOfAtStart("&", []);
    BeforeSkip(x, "&" + [], "&");
    assert x + [] == x;
  }

  /** As written, the rewrite of such a link takes `p` from the parameter
      before it: the deep link carries `x`, not `v`. */
  lemma RewriteTakesEarlierValue(id: string, name: string, x: string, v: string)
    requires Plain(id) && Plain(name) && Plain(x) && Plain(v)
    ensures RewriteMeetingUrl(TeamsLink(SkipRest(id, name, x, v))) == DeepLinkPrefix + id + "?p=" + x + "&anon=true"
  {
    SkipLinkRemaining(id, name, x, v);
    SkipLinkPValue(id, name, x, v);
    RewriteSpec(TeamsLink(SkipRest(id, name, x, v)));
  }

  /** Regrouping the query of such a link around its `&`. */
  lemma SkipQueryRegroup(name: string, x: string, w: string)
    ensures name + ("p=" + (x + w)) == (name + ("p=" + x)) + w
  {
  }

  /** The query of such a link splits at its one `&`. */
  lemma SkipQuerySplit(name: string, x: string, v: string)
    requires Lacks(name, '&') && Lacks(x, '&') && Lacks(v, '&')
    ensures Split(name + ("p=" + (x + ("&" + ("p=" + v)))), "&") == [name + ("p=" + x), "p=" + v]
  {
    SkipQueryRegroup(name, x, "&" + ("p=" + v));
    LacksConcat("p=", x, '&');
    LacksConcat(name, "p=" + x, '&');
    SplitSkip(name + ("p=" + x), "p=" + v, "&");
    LacksConcat("p=", v, '&');
    IndexOfMissingChar("p=" + v, "&");
  }

  /** The parameters of such a link: the one whose name ends in "p", then `p`. */
  lemma SkipLinkPairs(id: string, name: string, x: string, v: string)
    requires Plain(id) && Plain(name) && Plain(x) && Plain(v)
    ensures Contains(TeamsLink(SkipRest(id, name, x, v)), TeamsMarker)
    ensures MeetingId(TeamsLink(SkipRest(id, name, x, v))) == id
    ensures QueryPairs(TeamsLink(SkipRest(id, name, x, v))) == [name + ("p=" + x), "p=" + v]
  {
    SkipLinkRemaining(id, name, x, v);
    var t1 := name + ("p=" + (x + ("&" + ("p=" + v))));
    IndexOfAtStart("?", t1);
    AfterSkip(id, "?" + t1, "?");
    SkipQuerySplit(name, x, v);
  }

  /** The intended rewrite of such a link takes `p` from the `p` parameter:
      the deep link carries `v`. */
  lemma IntendedRewriteTakesP(id: string, name: string, x: string, v: string)
    requires Plain(id) && Plain(name) && Plain(x) && Plain(v) && name != ""
    ensures IntendedRewrite(TeamsLink(SkipRest(id, name, x, v))) == DeepLinkPrefix + id + "?p=" + v + "&anon=true"
  {
    SkipLinkPairs(id, name, x, v);
    var pairs := [name + ("p=" + x), "p=" + v];
    assert pairs[0][0] == name[0] != 'p';
    assert pairs[1][2..] == v;
    ParamValueFirst(pairs, "p", 1);
  }

  // ---- The automator's maps ----

  /** A stop signal (`chan struct{}`), closed at most once. */
  class StopSignal {
    var closed: bool

    constructor ()
      ensures !closed
    {
      closed := false;
    }

    /** `close(ch)`; closing a closed channel panics in Go. */
    method Close()
      requires !closed
      modifies this
      ensures closed
    {
      closed := true;
    }
  }

  /** The browser launched for a session. */
  datatype Browser = Browser(session: string)

  /** The page opened in a session's browser. */
  datatype Page = Page(session: string)

  /** A browser screenshot. */
  datatype Snapshot = Snapshot(session: string, png: seq<byte>)

  /** The streams `GetMeetingStreams` returns: the video of the page, and the
      audio, which is always nil. */
  datatype Streams = Streams(video: Page, audio: Option<Page>)

  /** The error of the lookups for a session without a page. */
  function PageNotFound(id: string): string
  {
    "page not found for session " + id
  }

  /** `RodAdapter`. */
  class RodAdapter {
    var browsers: map<string, Browser>
    var pages: map<string, Page>
    var stopCh: map<string, StopSignal>

    /** Every session with a browser has an open stop signal of its own and
        may have a page; no other session has any of them. */
    ghost predicate Valid()
      reads this, stopCh.Values
    {
      && stopCh.Keys == browsers.Keys
      && pages.Keys <= browsers.Keys
      && (forall k :: k in stopCh ==> !stopCh[k].closed)
      && (forall j, k :: j in stopCh && k in stopCh && j != k ==> stopCh[j] != stopCh[k])
    }

    /** `NewRodAutomator`: empty maps. */
    constructor ()
      ensures Valid()
      ensures browsers == map[] && pages == map[] && stopCh == map[]
    {
      browsers, pages, stopCh := map[], map[], map[];
    }

    /** The registrations of `JoinMeeting`. Launching the browser returns
        `launch`; the join flow reaches the lobby or not (`lobbyReached`). A
        failed launch registers nothing and is returned wrapped. Otherwise
        the browser and a fresh open stop signal are registered, then the
        page; a join flow that never reaches the lobby is returned as an
        error with all three left registered. `target` is the link the page
        is sent to: the deep-link rewrite of the meeting link; "" when no
        page is opened. */
    method JoinMeeting(id: string, meetingUrl: string, launch: Outcome, lobbyReached: bool)
      returns (err: Outcome, target: string)
      requires Valid()
      modifies this
      ensures Valid()
      ensures launch.Fail? ==>
                && err == Fail("failed to launch browser: " + launch.message)
                && browsers == old(browsers) && pages == old(pages) && stopCh == old(stopCh)
                && target == ""
      ensures launch.Pass? ==>
                && target == RewriteMeetingUrl(meetingUrl)
                && browsers == old(browsers)[id := Browser(id)]
                && pages == old(pages)[id := Page(id)]
                && stopCh.Keys == old(stopCh).Keys + {id}
                && fresh(stopCh[id])
                && (forall k :: k in old(stopCh) && k != id ==> stopCh[k] == old(stopCh)[k])
                && err == (if lobbyReached then Pass
                           else Fail("failed to join meeting (JS could not complete flow) after 45 seconds"))
    {
      if launch.Fail? {
        return Fail("failed to launch browser: " + launch.message), "";
      }
      var ch := new StopSignal();
      browsers := browsers[id := Browser(id)];
      stopCh := stopCh[id := ch];
      pages := pages[id := Page(id)];
      target := RewriteMeetingUrl(meetingUrl);
      if lobbyReached {
        err := Pass;
      } else {
        err := Fail("failed to join meeting (JS could not complete flow) after 45 seconds");
      }
    }

    /** `StopMeeting`. Closing the browser returns `closeResult`. The stop
        signal of the session, if any, is closed and removed; a registered
        browser is closed and removed with its page, and the close result
        returned; without a browser the result is success. Other sessions
        keep their entries and their signals stay open. */
    method StopMeeting(id: string, closeResult: Outcome) returns (err: Outcome)
      requires Valid()
      modifies this, if id in stopCh then {stopCh[id]} else {}
      ensures Valid()
      ensures id in old(stopCh) ==> old(stopCh)[id].closed
      ensures stopCh == old(stopCh) - {id}
      ensures id in old(browsers) ==>
                err == closeResult && browsers == old(browsers) - {id} && pages == old(pages) - {id}
      ensures id !in old(browsers) ==> err == Pass && browsers == old(browsers) && pages == old(pages)
    {
      if id in stopCh {
        var ch := stopCh[id];
        ch.Close();
        stopCh := stopCh - {id};
      }
      if id in browsers {
        err := closeResult;
        browsers := browsers - {id};
        pages := pages - {id};
        return;
      }
      err := Pass;
    }

    /** `GetSnapshot`. Taking the screenshot returns `shot`. Without a page
        the result is "page not found ..."; otherwise it is the screenshot
        result. Nothing changes. */
    method GetSnapshot(id: string, shot: Result<seq<byte>>) returns (r: Result<Snapshot>)
      ensures id !in pages ==> r == Err(PageNotFound(id))
      ensures id in pages && shot.Ok? ==> r == Ok(Snapshot(id, shot.value))
      ensures id in pages && shot.Err? ==> r == Err(shot.message)
    {
      if id !in pages {
        return Err(PageNotFound(id));
      }
      match shot
      case Ok(png) => r := Ok(Snapshot(id, png));
      case Err(msg) => r := Err(msg);
    }

    /** `GetMeetingStreams`. Without a page the result is "page not found
        ..."; otherwise the video stream of that page and a nil audio
        stream. Nothing changes. */
    method GetMeetingStreams(id: string) returns (r: Result<Streams>)
      ensures id !in pages ==> r == Err(PageNotFound(id))
      ensures id in pages ==> r == Ok(Streams(pages[id], None))
    {
      if id !in pages {
        return Err(PageNotFound(id));
      }
      r := Ok(Streams(pages[id], None));
    }
  }

  /** A second `StopMeeting` for a session finds nothing to close: it
      succeeds and closes no signal twice. Afterwards the session has no
      page, so the lookups fail. */
  method StopMeetingTwice() returns (first: Outcome, second: Outcome, streams: Result<Streams>)
    ensures first == Fail("browser gone") && second == Pass
    ensures streams == Err("page not found for session s1")
  {
    var rod := new RodAdapter();
    var _, _ := rod.JoinMeeting("s1", "u", Pass, true);
    first := rod.StopMeeting("s1", Fail("browser gone"));
    second := rod.StopMeeting("s1", Pass);
    streams := rod.GetMeetingStreams("s1");
  }

  /** A join that never reaches the lobby still leaves the page
      registered: its streams can be fetched until the meeting is
      stopped. */
  method FailedJoinKeepsPage() returns (join: Outcome, streams: Result<Streams>)
    ensures join.Fail?
    ensures streams == Ok(Streams(Page("s1"), None))
  {
    var rod := new RodAdapter();
    var target;
    join, target := rod.JoinMeeting("s1", "u", Pass, false);
    streams := rod.GetMeetingStreams("s1");
  }
}
