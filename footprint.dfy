/**
  The footprint collector (`get_digital_footprint`): fetch the five
  candidate pages of a domain in order, sleep after every fetch, keep the
  page texts longer than 100 characters and join the survivors with
  newlines.

  The page source is a total function from URL to page text: a failed
  fetch is the empty text, as the source's exception handler returns it.
  The sleep is a `Throttle` event in the trace the collector returns.
*/
module Collector {
  import opened Text
  import opened Urls

  /** A page text is kept only when it is strictly longer than this. */
  const MinPageLength: nat := 100

  predicate Kept(text: string)
  {
    |text| > MinPageLength
  }

  /** The kept texts, in their original order. */
  function KeepLong(texts: seq<string>): seq<string>
  {
    if texts == [] then []
    else
      var last := texts[|texts| - 1];
      KeepLong(texts[..|texts| - 1]) + (if Kept(last) then [last] else [])
  }

  /** A text is kept exactly when it is one of the inputs and longer than 100 characters. */
  lemma {:induction false} KeepLongMembers(texts: seq<string>)
    ensures |KeepLong(texts)| <= |texts|
    ensures forall t | t in KeepLong(texts) :: t in texts && Kept(t)
    ensures forall t | t in texts && Kept(t) :: t in KeepLong(texts)
  {
    if texts != [] {
      var init := texts[..|texts| - 1];
      KeepLongMembers(init);
      assert texts == init + [texts[|texts| - 1]];
    }
  }

  /** Filtering works piecewise, so the kept texts keep the order of the pages. */
  lemma {:induction false} KeepLongAppend(a: seq<string>, b: seq<string>)
    ensures KeepLong(a + b) == KeepLong(a) + KeepLong(b)
  {
    if b == [] {
      assert a + b == a;
    } else {
      var b' := b[..|b| - 1];
      assert (a + b)[..|a + b| - 1] == a + b';
      KeepLongAppend(a, b');
    }
  }

  /** No kept text, exactly when no text is long enough. */
  lemma KeepLongEmpty(texts: seq<string>)
    ensures KeepLong(texts) == [] <==> forall t | t in texts :: !Kept(t)
  {
    KeepLongMembers(texts);
    var kept := KeepLong(texts);
    if kept != [] {
      assert kept[0] in kept;
    }
  }

  function TotalLength(lines: seq<string>): nat
  {
    if lines == [] then 0 else |lines[0]| + TotalLength(lines[1..])
  }

  /** Python's `'\n'.join(lines)`: one newline between neighbours, none at either end. */
  function JoinLines(lines: seq<string>): (r: string)
    ensures |r| == if lines == [] then 0 else TotalLength(lines) + |lines| - 1
  {
    if lines == [] then ""
    else if |lines| == 1 then lines[0]
    else lines[0] + "\n" + JoinLines(lines[1..])
  }

  /** Cuts `s` at every newline (Python's `s.split('\n')`). */
  function SplitLines(s: string): (r: seq<string>)
    ensures |r| >= 1
    decreases |s|
  {
    match IndexOf(s, '\n')
    case None => [s]
    case Some(k) => [s[..k]] + SplitLines(s[k + 1..])
  }

  /** Joining newline-free lines and splitting the result gives the lines back. */
  lemma {:induction false} SplitJoinLines(lines: seq<string>)
    requires lines != []
    requires forall l | l in lines :: '\n' !in l
    ensures SplitLines(JoinLines(lines)) == lines
  {
    if |lines| > 1 {
      var rest := JoinLines(lines[1..]);
      var s := lines[0] + "\n" + rest;
      IndexOfAfterPrefix(lines[0], '\n', rest);
      assert s[..|lines[0]|] == lines[0];
      assert s[|lines[0]| + 1..] == rest;
      SplitJoinLines(lines[1..]);
    }
  }

  /** With no empty line, the joined text is empty exactly when there are no lines. */
  lemma JoinLinesEmpty(lines: seq<string>)
    requires forall l | l in lines :: l != []
    ensures JoinLines(lines) == [] <==> lines == []
  {
    if lines != [] {
      assert lines[0] in lines;
    }
  }

  /** The texts the five fetches return, in page order. */
  function PageTexts(domain: string, fetch: string -> string): seq<string>
  {
    seq(|Pages|, i requires 0 <= i < |Pages| => fetch(CandidateUrls(domain)[i]))
  }

  /** The footprint of a domain, as `get_digital_footprint` returns it. */
  function Footprint(domain: string, fetch: string -> string): string
  {
    JoinLines(KeepLong(PageTexts(domain, fetch)))
  }

  /** What the collector does that can be observed from outside: fetches and sleeps. */
  datatype Event = Fetch(url: string) | Throttle

  /** One fetch of each URL in order, each followed by one sleep. */
  function ThrottledTrace(urls: seq<string>): seq<Event>
  {
    if urls == [] then []
    else ThrottledTrace(urls[..|urls| - 1]) + [Fetch(urls[|urls| - 1]), Throttle]
  }

  function DomainTrace(domain: string): seq<Event>
  {
    ThrottledTrace(CandidateUrls(domain))
  }

  /** The trace alternates fetch and sleep, one pair per URL, ending with a sleep. */
  lemma {:induction false} ThrottledTraceShape(urls: seq<string>)
    ensures |ThrottledTrace(urls)| == 2 * |urls|
    ensures forall k | 0 <= k < |urls| ::
      ThrottledTrace(urls)[2 * k] == Fetch(urls[k]) && ThrottledTrace(urls)[2 * k + 1] == Throttle
  {
    if urls != [] {
      var init := urls[..|urls| - 1];
      ThrottledTraceShape(init);
      forall k | 0 <= k < |init|
        ensures urls[k] == init[k]
      {
      }
    }
  }

  /** The URLs of the fetch events of a trace, in order. */
  function FetchedUrls(trace: seq<Event>): seq<string>
  {
    if trace == [] then []
    else
      var last := trace[|trace| - 1];
      FetchedUrls(trace[..|trace| - 1]) + (if last.Fetch? then [last.url] else [])
  }

  /** A throttled trace fetches exactly the given URLs, each once, in the given order. */
  lemma {:induction false} FetchedUrlsOfTrace(urls: seq<string>)
    ensures FetchedUrls(ThrottledTrace(urls)) == urls
  {
    if urls != [] {
      var init := urls[..|urls| - 1];
      var t := ThrottledTrace(init);
      var u := urls[|urls| - 1];
      assert (t + [Fetch(u), Throttle])[..|t| + 1] == t + [Fetch(u)];
      assert (t + [Fetch(u)])[..|t|] == t;
      FetchedUrlsOfTrace(init);
    }
  }

  /**
    A domain's trace: ten events, fetch and sleep alternating, the fetches
    going to the candidate URLs in page order.
  */
  lemma DomainTraceShape(domain: string)
    ensures |DomainTrace(domain)| == 2 * |Pages|
    ensures forall k | 0 <= k < |Pages| ::
      DomainTrace(domain)[2 * k] == Fetch(CandidateUrls(domain)[k]) && DomainTrace(domain)[2 * k + 1] == Throttle
    ensures FetchedUrls(DomainTrace(domain)) == CandidateUrls(domain)
  {
    ThrottledTraceShape(CandidateUrls(domain));
    FetchedUrlsOfTrace(CandidateUrls(domain));
  }

  lemma AppendTwo<T>(a: seq<T>, x: T, y: T)
    ensures a + [x] + [y] == a + [x, y]
  {
  }

  lemma KeepLongStep(texts: seq<string>, i: nat)
    requires i < |texts|
    ensures KeepLong(texts[..i + 1]) == KeepLong(texts[..i]) + if Kept(texts[i]) then [texts[i]] else []
  {
    assert texts[..i + 1][..i] == texts[..i];
  }

  lemma ThrottledTraceStep(urls: seq<string>, i: nat)
    requires i < |urls|
    ensures ThrottledTrace(urls[..i + 1]) == ThrottledTrace(urls[..i]) + [Fetch(urls[i]), Throttle]
  {
    assert urls[..i + 1][..i] == urls[..i];
  }

  /** `get_digital_footprint`: the loop over the page list. */
  method CollectFootprint(domain: string, fetch: string -> string) returns (footprint: string, trace: seq<Event>)
    ensures footprint == Footprint(domain, fetch)
    ensures trace == DomainTrace(domain)
  {
    ghost var texts := PageTexts(domain, fetch);
    ghost var urls := CandidateUrls(domain);
    var base := BaseOrigin(domain);
    var allText: seq<string> := [];
    trace := [];
    var i := 0;
    while i < |Pages|
      invariant 0 <= i <= |Pages|
      invariant allText == KeepLong(texts[..i])
      invariant trace == ThrottledTrace(urls[..i])
    {
      ghost var before := trace;
      var url := Join(base, Pages[i]);
      trace := trace + [Fetch(url)];
      var pageText := fetch(url);
      if |pageText| > MinPageLength {
        allText := allText + [pageText];
      }
      trace := trace + [Throttle];
      assert url == urls[i];
      assert pageText == texts[i];
      AppendTwo(before, Fetch(url), Throttle);
      KeepLongStep(texts, i);
      ThrottledTraceStep(urls, i);
      i := i + 1;
    }
    assert texts[..i] == texts;
    assert urls[..i] == urls;
    footprint := JoinLines(allText);
  }

  /** The footprint is empty exactly when none of the five pages is longer than 100 characters. */
  lemma FootprintEmpty(domain: string, fetch: string -> string)
    ensures Footprint(domain, fetch) == [] <==> forall i | 0 <= i < |Pages| :: !Kept(PageTexts(domain, fetch)[i])
  {
    var texts := PageTexts(domain, fetch);
    var kept := KeepLong(texts);
    KeepLongMembers(texts);
    JoinLinesEmpty(kept);
    KeepLongEmpty(texts);
  }

  /** When exactly one page is long enough, the footprint is that page's text, with no newline added. */
  lemma SinglePageFootprint(domain: string, fetch: string -> string, i: nat)
    requires i < |Pages|
    requires Kept(PageTexts(domain, fetch)[i])
    requires forall j | 0 <= j < |Pages| && j != i :: !Kept(PageTexts(domain, fetch)[j])
    ensures Footprint(domain, fetch) == PageTexts(domain, fetch)[i]
  {
    var texts := PageTexts(domain, fetch);
    var before, page, after := texts[..i], texts[i], texts[i + 1..];
    assert texts == before + [page] + after;
    assert KeepLong(before) == [] by {
      forall t | t in before ensures !Kept(t) {
        var j :| 0 <= j < |before| && before[j] == t;
      }
      KeepLongEmpty(before);
    }
    assert KeepLong(after) == [] by {
      forall t | t in after ensures !Kept(t) {
        var j :| 0 <= j < |after| && after[j] == t;
        assert t == texts[i + 1 + j];
      }
      KeepLongEmpty(after);
    }
    assert KeepLong([page]) == [page] by {
      assert [page][..0] == [];
    }
    KeepLongAppend(before, [page]);
    KeepLongAppend(before + [page], after);
  }

  /**
    When some page is kept and no kept text holds a newline, splitting the
    footprint at its newlines recovers the kept texts in page order.
  */
  lemma FootprintLines(domain: string, fetch: string -> string)
    requires exists i | 0 <= i < |Pages| :: Kept(PageTexts(domain, fetch)[i])
    requires forall i | 0 <= i < |Pages| && Kept(PageTexts(domain, fetch)[i]) :: '\n' !in PageTexts(domain, fetch)[i]
    ensures SplitLines(Footprint(domain, fetch)) == KeepLong(PageTexts(domain, fetch))
  {
    var texts := PageTexts(domain, fetch);
    var kept := KeepLong(texts);
    var i :| 0 <= i < |Pages| && Kept(texts[i]);
    assert texts[i] in texts;
    KeepLongMembers(texts);
    forall l | l in kept ensures '\n' !in l {
      var j :| 0 <= j < |texts| && texts[j] == l;
    }
    SplitJoinLines(kept);
  }
}
