/**
  The run loop at the bottom of the script: for each company in order,
  collect its footprint, call the classifier `check_lead(footprint,
  industry)` when the footprint is non-empty (otherwise record "No data"),
  and append a (company, verdict) row to the result table.

  The classifier is a parameter of the run; `LeadCheck` models the request
  it sends, and `LabelReachesModel` below puts the two together.
*/
module Orchestrator {
  import opened Text
  import opened Urls
  import opened LeadCheck
  import opened Collector

  /** The verdict recorded when a company yields no usable text. */
  const NoData: string := "No data"

  /** One row of the result table: the company as given, and its verdict. */
  datatype Row = Row(company: string, verdict: string)

  /** The verdict recorded for one company; `classify` stands for `check_lead`. */
  function Verdict(company: string, industry: string, fetch: string -> string, classify: (string, string) -> string): string
  {
    var footprint := Footprint(company, fetch);
    if footprint != [] then classify(footprint, industry) else NoData
  }

  /** An observable step of a run: a page fetch or sleep, or one call of the classifier. */
  datatype RunEvent = Page(event: Event) | Classify(sentence: string, industry: string)

  function PageEvents(events: seq<Event>): seq<RunEvent>
  {
    seq(|events|, i requires 0 <= i < |events| => Page(events[i]))
  }

  /** The steps of a run for one company. */
  function CompanyTrace(company: string, industry: string, fetch: string -> string): seq<RunEvent>
  {
    var footprint := Footprint(company, fetch);
    PageEvents(DomainTrace(company)) + (if footprint != [] then [Classify(footprint, industry)] else [])
  }

  /** The steps of a run over `companies`, company after company. */
  function RunTrace(companies: seq<string>, industry: string, fetch: string -> string): seq<RunEvent>
  {
    if companies == [] then []
    else
      RunTrace(companies[..|companies| - 1], industry, fetch)
      + CompanyTrace(companies[|companies| - 1], industry, fetch)
  }

  /** One row per company, in input order, each with the verdict `verdictOf` gives that company. */
  function Rows(companies: seq<string>, verdictOf: string -> string): seq<Row>
  {
    if companies == [] then []
    else
      var company := companies[|companies| - 1];
      Rows(companies[..|companies| - 1], verdictOf) + [Row(company, verdictOf(company))]
  }

  /** Exactly one row per company, duplicates included, in input order, keyed by the company as given. */
  lemma {:induction false} RowsAt(companies: seq<string>, verdictOf: string -> string)
    ensures |Rows(companies, verdictOf)| == |companies|
    ensures forall i | 0 <= i < |companies| :: Rows(companies, verdictOf)[i] == Row(companies[i], verdictOf(companies[i]))
  {
    if companies != [] {
      var init := companies[..|companies| - 1];
      RowsAt(init, verdictOf);
      forall i | 0 <= i < |init| ensures companies[i] == init[i] { }
    }
  }

  /** The body of the script's loop: one company's footprint, verdict and row. */
  method ProcessCompany(company: string, industry: string, fetch: string -> string, classify: (string, string) -> string)
    returns (row: Row, events: seq<RunEvent>)
    ensures row == Row(company, Verdict(company, industry, fetch, classify))
    ensures events == CompanyTrace(company, industry, fetch)
  {
    var footprint, pageTrace := CollectFootprint(company, fetch);
    events := PageEvents(pageTrace);
    var leadType;
    if footprint != [] {
      events := events + [Classify(footprint, industry)];
      leadType := classify(footprint, industry);
    } else {
      leadType := NoData;
    }
    row := Row(company, leadType);
    assert Verdict(company, industry, fetch, classify) == leadType;
    assert CompanyTrace(company, industry, fetch) == events;
  }

  /** The script's loop over the companies, building the table row by row. */
  method Run(companies: seq<string>, industry: string, fetch: string -> string, classify: (string, string) -> string)
    returns (table: seq<Row>, trace: seq<RunEvent>)
    ensures |table| == |companies|
    ensures forall i | 0 <= i < |companies| ::
      table[i] == Row(companies[i], Verdict(companies[i], industry, fetch, classify))
    ensures trace == RunTrace(companies, industry, fetch)
  {
    ghost var verdictOf := (c: string) => Verdict(c, industry, fetch, classify);
    table, trace := [], [];
    for n := 0 to |companies|
      invariant table == Rows(companies[..n], verdictOf)
      invariant trace == RunTrace(companies[..n], industry, fetch)
    {
      var row, events := ProcessCompany(companies[n], industry, fetch, classify);
      assert companies[..n + 1][..n] == companies[..n];
      assert row == Row(companies[n], verdictOf(companies[n]));
      table := table + [row];
      trace := trace + events;
    }
    assert companies[..|companies|] == companies;
    RowsAt(companies, verdictOf);
  }

  /** A company none of whose pages is longer than 100 characters gets "No data". */
  lemma VerdictWithoutData(company: string, industry: string, fetch: string -> string, classify: (string, string) -> string)
    requires forall i | 0 <= i < |Pages| :: !Kept(PageTexts(company, fetch)[i])
    ensures Verdict(company, industry, fetch, classify) == NoData
  {
    FootprintEmpty(company, fetch);
  }

  /**
    A company with a page longer than 100 characters gets the classifier's
    verdict on its footprint, which is non-empty, and the run's industry.
  */
  lemma VerdictWithData(company: string, industry: string, fetch: string -> string, classify: (string, string) -> string, i: nat)
    requires i < |Pages| && Kept(PageTexts(company, fetch)[i])
    ensures Footprint(company, fetch) != []
    ensures Verdict(company, industry, fetch, classify) == classify(Footprint(company, fetch), industry)
  {
    FootprintEmpty(company, fetch);
  }

  /** The classifier calls of a trace, as (footprint, industry) pairs, in order. */
  function Calls(trace: seq<RunEvent>): seq<(string, string)>
  {
    if trace == [] then []
    else
      var last := trace[|trace| - 1];
      Calls(trace[..|trace| - 1]) + (if last.Classify? then [(last.sentence, last.industry)] else [])
  }

  /** One call per company with a non-empty footprint, in input order. */
  function ExpectedCalls(companies: seq<string>, industry: string, fetch: string -> string): seq<(string, string)>
  {
    if companies == [] then []
    else
      var footprint := Footprint(companies[|companies| - 1], fetch);
      ExpectedCalls(companies[..|companies| - 1], industry, fetch)
      + (if footprint != [] then [(footprint, industry)] else [])
  }

  lemma {:induction false} CallsAppend(a: seq<RunEvent>, b: seq<RunEvent>)
    ensures Calls(a + b) == Calls(a) + Calls(b)
  {
    if b == [] {
      assert a + b == a;
    } else {
      var b' := b[..|b| - 1];
      assert (a + b)[..|a + b| - 1] == a + b';
      CallsAppend(a, b');
    }
  }

  lemma {:induction false} CallsOfPageEvents(events: seq<Event>)
    ensures Calls(PageEvents(events)) == []
  {
    if events != [] {
      var init := events[..|events| - 1];
      assert PageEvents(events)[..|events| - 1] == PageEvents(init);
      CallsOfPageEvents(init);
    }
  }

  /** A company's steps call the classifier once when its footprint is non-empty, and never otherwise. */
  lemma CallsOfCompanyTrace(company: string, industry: string, fetch: string -> string)
    ensures
      var footprint := Footprint(company, fetch);
      Calls(CompanyTrace(company, industry, fetch)) == if footprint != [] then [(footprint, industry)] else []
  {
    var footprint := Footprint(company, fetch);
    var tail := if footprint != [] then [Classify(footprint, industry)] else [];
    CallsAppend(PageEvents(DomainTrace(company)), tail);
    CallsOfPageEvents(DomainTrace(company));
    if footprint != [] {
      assert tail[..0] == [];
    }
  }

  /**
    The classifier is called exactly once for each company with a non-empty
    footprint, in input order, and never for a company without one.
  */
  lemma {:induction false} CallsOfRun(companies: seq<string>, industry: string, fetch: string -> string)
    ensures Calls(RunTrace(companies, industry, fetch)) == ExpectedCalls(companies, industry, fetch)
  {
    if companies != [] {
      var init := companies[..|companies| - 1];
      var company := companies[|companies| - 1];
      CallsOfRun(init, industry, fetch);
      CallsAppend(RunTrace(init, industry, fetch), CompanyTrace(company, industry, fetch));
      CallsOfCompanyTrace(company, industry, fetch);
    }
  }

  /** Every classifier call of a run gets a non-empty footprint and the run's industry label. */
  lemma {:induction false} ExpectedCallsCarryData(companies: seq<string>, industry: string, fetch: string -> string)
    ensures forall c | c in ExpectedCalls(companies, industry, fetch) :: c.0 != [] && c.1 == industry
  {
    if companies != [] {
      ExpectedCallsCarryData(companies[..|companies| - 1], industry, fetch);
    }
  }

  /**
    With `check_lead` as the classifier, and a stand-in model that answers
    "Yes" exactly when the industry label appears verbatim in the system
    instruction, every company with a usable footprint gets "Yes": the
    label does reach the model.
  */
  lemma LabelReachesModel(company: string, industry: string, fetch: string -> string)
    requires Footprint(company, fetch) != []
    ensures Verdict(company, industry, fetch,
      (s: string, tag: string) => CheckLead(s, tag,
        (r: Request) => if |r.messages| > 0 && Occurs(industry, r.messages[0].content) then "Yes" else "No")) == "Yes"
  {
    IndustryVerbatim(industry);
  }

  const DemoIndustry: string := "Software development"

  const DemoCompanies: seq<string> := ["freecodecamp.org", "oracle.com", "python.org"]

  /** The script's own run: its three companies, its industry label, and `check_lead` as the classifier. */
  method Demo(fetch: string -> string, complete: Request -> string) returns (table: seq<Row>)
    ensures |table| == 3
    ensures table[0].company == "freecodecamp.org" && table[1].company == "oracle.com" && table[2].company == "python.org"
    ensures forall i | 0 <= i < 3 ::
      table[i].verdict == Verdict(DemoCompanies[i], DemoIndustry, fetch, (s: string, tag: string) => CheckLead(s, tag, complete))
  {
    var trace;
    table, trace := Run(DemoCompanies, DemoIndustry, fetch, (s: string, tag: string) => CheckLead(s, tag, complete));
  }
}
