/** The Postgres store of the engine. Each table is a sequence of rows; the
    database's answers (a failed statement, a failed rollback, a failed commit)
    are oracles, one `TxFaults` value per transaction. Row ids come from one
    counter, `nextID`; only the rows of a committed transaction are kept.
    `log` records the statements each transaction issues, in order. */
module Storage {
  import opened Base
  import opened Model
  import opened Utf8

  datatype RunRow = RunRow(id: int, title: Bytes)
  datatype ReportRow = ReportRow(id: int, runID: int, domainName: Bytes, overview: Bytes, trends: Bytes, score: int)
  datatype ArticleRow = ArticleRow(reportID: int, title: Bytes, link: Bytes, source: Bytes, pubDate: Bytes, content: Bytes)
  datatype EventRow = EventRow(reportID: int, content: Bytes)
  datatype AnalysisRow = AnalysisRow(id: int, runID: int, userID: int, macroTrends: Bytes, opportunities: Bytes, risks: Bytes)
  datatype GuideRow = GuideRow(analysisID: int, content: Bytes)
  datatype User = User(id: int, persona: Bytes)

  datatype Table = Reports | Articles | KeyEvents | Analyses | ActionGuides

  /** A statement of a transaction: a single create, or a bulk create of `rows` rows. */
  datatype Statement = Begin | Create(table: Table) | Bulk(table: Table, rows: nat) | Rollback | Commit

  /** How the database answers the statements of one transaction: `begin`,
      `create` (the parent row), `bulk1` and `bulk2` (the child rows, in
      order), `rollback` and `commit`; None is success. */
  datatype TxFaults = TxFaults(
    begin: Option<Error>, create: Option<Error>, bulk1: Option<Error>, bulk2: Option<Error>,
    rollback: Option<Error>, commit: Option<Error>)

  /** The error returned after a failed statement `e` and the rollback it triggers. */
  function RollbackError(e: Error, rerr: Option<Error>): (r: Error)
    ensures rerr.None? ==> r == e
    ensures rerr.Some? ==> r == WithRollback(e, rerr.value)
    ensures ErrorText(e) <= ErrorText(r)
    ensures rerr.None? ==> ErrorText(r) == ErrorText(e)
    ensures rerr.Some? ==> ErrorText(r) == ErrorText(e) + [58, 32] + ErrorText(rerr.value)
  {
    if rerr.Some? then WithRollback(e, rerr.value) else e
  }

  // ---- the rows a save creates ------------------------------------------------

  /** The article row of `a` under report `id`; only the content is changed. */
  function StoredArticle(id: int, a: Article): ArticleRow
  {
    ArticleRow(id, a.title, a.link, a.source, a.pubDate, StoredContent(a.content))
  }

  function ArticleRows(id: int, arts: seq<Article>): (rows: seq<ArticleRow>)
    ensures |rows| == |arts|
  {
    if arts == [] then [] else ArticleRows(id, arts[..|arts| - 1]) + [StoredArticle(id, arts[|arts| - 1])]
  }

  function EventRows(id: int, events: seq<Bytes>): (rows: seq<EventRow>)
    ensures |rows| == |events|
  {
    if events == [] then [] else EventRows(id, events[..|events| - 1]) + [EventRow(id, events[|events| - 1])]
  }

  function GuideRows(id: int, guides: seq<Bytes>): (rows: seq<GuideRow>)
    ensures |rows| == |guides|
  {
    if guides == [] then [] else GuideRows(id, guides[..|guides| - 1]) + [GuideRow(id, guides[|guides| - 1])]
  }

  /** The articles' builders: the sanitiser runs on each content. */
  method BuildArticleRows(id: int, arts: seq<Article>) returns (rows: seq<ArticleRow>)
    ensures rows == ArticleRows(id, arts)
  {
    rows := [];
    for i := 0 to |arts|
      invariant rows == ArticleRows(id, arts[..i])
    {
      var art := arts[i];
      var content := Sanitize(art.content);
      assert arts[..i + 1][..i] == arts[..i];
      rows := rows + [ArticleRow(id, art.title, art.link, art.source, art.pubDate, content)];
    }
    assert arts[..|arts|] == arts;
  }

  method BuildEventRows(id: int, events: seq<Bytes>) returns (rows: seq<EventRow>)
    ensures rows == EventRows(id, events)
  {
    rows := [];
    for i := 0 to |events|
      invariant rows == EventRows(id, events[..i])
    {
      assert events[..i + 1][..i] == events[..i];
      rows := rows + [EventRow(id, events[i])];
    }
    assert events[..|events|] == events;
  }

  method BuildGuideRows(id: int, guides: seq<Bytes>) returns (rows: seq<GuideRow>)
    ensures rows == GuideRows(id, guides)
  {
    rows := [];
    for i := 0 to |guides|
      invariant rows == GuideRows(id, guides[..i])
    {
      assert guides[..i + 1][..i] == guides[..i];
      rows := rows + [GuideRow(id, guides[i])];
    }
    assert guides[..|guides|] == guides;
  }

  // ---- the transactions, as values ------------------------------------------------

  /** The error and the statements of a transaction that creates a parent row
      and then up to two bulk inserts of `n1` and `n2` child rows, each issued
      only when it has rows to insert. */
  function TxError(n1: nat, n2: nat, f: TxFaults): Option<Error>
  {
    if f.begin.Some? then f.begin
    else if f.create.Some? then Some(RollbackError(f.create.value, f.rollback))
    else if n1 > 0 && f.bulk1.Some? then Some(RollbackError(f.bulk1.value, f.rollback))
    else if n2 > 0 && f.bulk2.Some? then Some(RollbackError(f.bulk2.value, f.rollback))
    else f.commit
  }

  function TxStatements(parent: Table, t1: Table, n1: nat, t2: Table, n2: nat, f: TxFaults): seq<Statement>
  {
    if f.begin.Some? then []
    else if f.create.Some? then [Begin, Create(parent), Rollback]
    else
      var s1 := if n1 > 0 then [Bulk(t1, n1)] else [];
      if n1 > 0 && f.bulk1.Some? then [Begin, Create(parent)] + s1 + [Rollback]
      else
        var s2 := if n2 > 0 then [Bulk(t2, n2)] else [];
        if n2 > 0 && f.bulk2.Some? then [Begin, Create(parent)] + s1 + s2 + [Rollback]
        else [Begin, Create(parent)] + s1 + s2 + [Commit]
  }

  function ReportStatements(report: DomainReport, f: TxFaults): seq<Statement>
  {
    TxStatements(Reports, Articles, |report.articles|, KeyEvents, |report.keyEvents|, f)
  }

  function AnalysisStatements(a: DeepAnalysis, f: TxFaults): seq<Statement>
  {
    TxStatements(Analyses, ActionGuides, |a.actionGuides|, KeyEvents, 0, f)
  }

  /** The runs after UpdateOneID(id).SetTitle(title). */
  function Retitled(runs: seq<RunRow>, id: int, title: Bytes): (rs: seq<RunRow>)
    ensures |rs| == |runs|
  {
    if runs == [] then []
    else
      var last := runs[|runs| - 1];
      Retitled(runs[..|runs| - 1], id, title) + [if last.id == id then last.(title := title) else last]
  }

  predicate HasRun(runs: seq<RunRow>, id: int)
  {
    exists k :: 0 <= k < |runs| && runs[k].id == id
  }

  lemma HasRunStep(runs: seq<RunRow>, k: nat, id: int)
    requires k < |runs|
    ensures HasRun(runs[..k + 1], id) <==> HasRun(runs[..k], id) || runs[k].id == id
  {
    var p, q := runs[..k], runs[..k + 1];
    if HasRun(q, id) && runs[k].id != id {
      var j :| 0 <= j < |q| && q[j].id == id;
      assert j < k && p[j] == q[j];
    }
    if HasRun(p, id) {
      var j :| 0 <= j < |p| && p[j].id == id;
      assert q[j] == p[j];
    }
    if runs[k].id == id {
      assert q[k] == runs[k];
    }
  }

  /** `Where(user.PersonaNEQ(""))`: the users with a persona, in table order. */
  function PersonaUsers(users: seq<User>): (us: seq<User>)
    ensures |us| <= |users|
  {
    if users == [] then []
    else PersonaUsers(users[..|users| - 1]) + if users[|users| - 1].persona != [] then [users[|users| - 1]] else []
  }

  /** The error ent returns for an update of a missing row. */
  function RunNotFound(): Error { Opaque(Ascii("ent: report_run not found")) }

  class Store {
    var runs: seq<RunRow>
    var reports: seq<ReportRow>
    var articles: seq<ArticleRow>
    var events: seq<EventRow>
    var analyses: seq<AnalysisRow>
    var guides: seq<GuideRow>
    var users: seq<User>
    var log: seq<Statement>
    var nextID: int

    /** Every id handed out is positive and below `nextID`. */
    ghost predicate Valid()
      reads this
    {
      0 < nextID &&
      (forall k :: 0 <= k < |runs| ==> 0 < runs[k].id < nextID) &&
      (forall k :: 0 <= k < |reports| ==> 0 < reports[k].id < nextID) &&
      (forall k :: 0 <= k < |analyses| ==> 0 < analyses[k].id < nextID)
    }

    constructor(users: seq<User>)
      ensures Valid()
      ensures runs == [] && reports == [] && articles == [] && events == [] && analyses == [] && guides == []
      ensures this.users == users && log == []
    {
      runs, reports, articles, events, analyses, guides := [], [], [], [], [], [];
      this.users := users;
      log := [];
      nextID := 1;
    }

    /** CreateRun: a new run row with a fresh, positive id, or the error (and id 0). */
    method CreateRun(fault: Option<Error>) returns (id: int, err: Option<Error>)
      requires Valid()
      modifies this
      ensures Valid() && err == fault
      ensures fault.Some? ==> id == 0 && runs == old(runs) && nextID == old(nextID)
      ensures fault.None? ==> id == old(nextID) && id > 0 && runs == old(runs) + [RunRow(id, [])] && nextID == id + 1
      ensures fault.None? ==> forall k :: 0 <= k < |old(runs)| ==> old(runs)[k].id != id
      ensures reports == old(reports) && articles == old(articles) && events == old(events)
      ensures analyses == old(analyses) && guides == old(guides) && users == old(users) && log == old(log)
    {
      if fault.Some? {
        return 0, fault;
      }
      id := nextID;
      runs := runs + [RunRow(id, [])];
      nextID := nextID + 1;
      err := None;
    }

    /** UpdateRunTitle; updating a run that does not exist is ent's not-found error. */
    method UpdateRunTitle(runID: int, title: Bytes, fault: Option<Error>) returns (err: Option<Error>)
      requires Valid()
      modifies this
      ensures Valid()
      ensures err == if fault.Some? then fault else if HasRun(old(runs), runID) then None else Some(RunNotFound())
      ensures runs == if err.None? then Retitled(old(runs), runID, title) else old(runs)
      ensures reports == old(reports) && articles == old(articles) && events == old(events) && nextID == old(nextID)
      ensures analyses == old(analyses) && guides == old(guides) && users == old(users) && log == old(log)
    {
      if fault.Some? {
        return fault;
      }
      var updated, found := RetitleRuns(runs, runID, title);
      if !found {
        return Some(RunNotFound());
      }
      RetitledKeepsIds(runs, runID, title);
      runs := updated;
      err := None;
    }

    /** GetUsersWithPersona. */
    method UsersWithPersona(fault: Option<Error>) returns (us: seq<User>, err: Option<Error>)
      ensures err == fault
      ensures fault.None? ==> us == PersonaUsers(users)
      ensures fault.Some? ==> us == []
    {
      if fault.Some? {
        return [], fault;
      }
      us := PersonaUsers(users);
      err := None;
    }

    /** SaveDomainReport: the report row, then its article rows (the contents
        sanitised) and its key-event rows, all committed together or none. */
    method SaveDomainReport(runID: int, report: DomainReport, f: TxFaults) returns (err: Option<Error>)
      requires Valid()
      modifies this
      ensures Valid()
      ensures err == TxError(|report.articles|, |report.keyEvents|, f)
      ensures log == old(log) + ReportStatements(report, f)
      ensures err.Some? ==> reports == old(reports) && articles == old(articles) && events == old(events) && nextID == old(nextID)
      ensures err.None? ==>
        reports == old(reports) + [ReportRow(old(nextID), runID, report.domainName, report.overview, report.trends, report.score)] &&
        articles == old(articles) + ArticleRows(old(nextID), report.articles) &&
        events == old(events) + EventRows(old(nextID), report.keyEvents) &&
        nextID == old(nextID) + 1
      ensures runs == old(runs) && analyses == old(analyses) && guides == old(guides) && users == old(users)
    {
      var stmts, e := RunTx(Reports, Articles, |report.articles|, KeyEvents, |report.keyEvents|, f);
      log := log + stmts;
      err := e;
      if err.None? {
        var articleRows := BuildArticleRows(nextID, report.articles);
        var eventRows := BuildEventRows(nextID, report.keyEvents);
        AddReport(ReportRow(nextID, runID, report.domainName, report.overview, report.trends, report.score), articleRows, eventRows);
      }
    }

    /** The commit of SaveDomainReport: the rows become visible. */
    method AddReport(row: ReportRow, articleRows: seq<ArticleRow>, eventRows: seq<EventRow>)
      requires Valid() && row.id == nextID
      modifies this
      ensures Valid() && nextID == old(nextID) + 1
      ensures reports == old(reports) + [row] && articles == old(articles) + articleRows && events == old(events) + eventRows
      ensures runs == old(runs) && analyses == old(analyses) && guides == old(guides) && users == old(users) && log == old(log)
    {
      reports := reports + [row];
      articles := articles + articleRows;
      events := events + eventRows;
      nextID := nextID + 1;
    }

    /** SaveDeepAnalysis: the analysis row and one action-guide row per guide,
        committed together or none. The analysis title is not stored here. */
    method SaveDeepAnalysis(runID: int, userID: int, a: DeepAnalysis, f: TxFaults) returns (err: Option<Error>)
      requires Valid()
      modifies this
      ensures Valid()
      ensures err == TxError(|a.actionGuides|, 0, f)
      ensures log == old(log) + AnalysisStatements(a, f)
      ensures err.Some? ==> analyses == old(analyses) && guides == old(guides) && nextID == old(nextID)
      ensures err.None? ==>
        analyses == old(analyses) + [AnalysisRow(old(nextID), runID, userID, a.macroTrends, a.opportunities, a.risks)] &&
        guides == old(guides) + GuideRows(old(nextID), a.actionGuides) &&
        nextID == old(nextID) + 1
      ensures runs == old(runs) && reports == old(reports) && articles == old(articles) && events == old(events) && users == old(users)
    {
      var stmts, e := RunTx(Analyses, ActionGuides, |a.actionGuides|, KeyEvents, 0, f);
      log := log + stmts;
      err := e;
      if err.None? {
        var guideRows := BuildGuideRows(nextID, a.actionGuides);
        AddAnalysis(AnalysisRow(nextID, runID, userID, a.macroTrends, a.opportunities, a.risks), guideRows);
      }
    }

    /** The commit of SaveDeepAnalysis. */
    method AddAnalysis(row: AnalysisRow, guideRows: seq<GuideRow>)
      requires Valid() && row.id == nextID
      modifies this
      ensures Valid() && nextID == old(nextID) + 1
      ensures analyses == old(analyses) + [row] && guides == old(guides) + guideRows
      ensures runs == old(runs) && reports == old(reports) && articles == old(articles) && events == old(events)
      ensures users == old(users) && log == old(log)
    {
      analyses := analyses + [row];
      guides := guides + guideRows;
      nextID := nextID + 1;
    }
  }

  /** The update's scan: every run with the id gets the title. */
  method RetitleRuns(runs: seq<RunRow>, id: int, title: Bytes) returns (updated: seq<RunRow>, found: bool)
    ensures updated == Retitled(runs, id, title) && found == HasRun(runs, id)
  {
    found, updated := false, [];
    for k := 0 to |runs|
      invariant updated == Retitled(runs[..k], id, title)
      invariant found <==> HasRun(runs[..k], id)
    {
      var r := runs[k];
      assert runs[..k + 1][..k] == runs[..k];
      HasRunStep(runs, k, id);
      if r.id == id {
        found := true;
        r := r.(title := title);
      }
      updated := updated + [r];
    }
    assert runs[..|runs|] == runs;
  }

  /** The statements of a save, stepped through as the database answers them:
      begin, the parent row, each non-empty bulk insert, then commit, with a
      rollback after the first failed statement. */
  method RunTx(parent: Table, t1: Table, n1: nat, t2: Table, n2: nat, f: TxFaults)
    returns (stmts: seq<Statement>, err: Option<Error>)
    ensures stmts == TxStatements(parent, t1, n1, t2, n2, f)
    ensures err == TxError(n1, n2, f)
  {
    if f.begin.Some? {
      return [], f.begin;
    }
    stmts := [Begin, Create(parent)];
    if f.create.Some? {
      return stmts + [Rollback], Some(RollbackError(f.create.value, f.rollback));
    }
    if n1 > 0 {
      stmts := stmts + [Bulk(t1, n1)];
      if f.bulk1.Some? {
        return stmts + [Rollback], Some(RollbackError(f.bulk1.value, f.rollback));
      }
    }
    if n2 > 0 {
      stmts := stmts + [Bulk(t2, n2)];
      if f.bulk2.Some? {
        return stmts + [Rollback], Some(RollbackError(f.bulk2.value, f.rollback));
      }
    }
    return stmts + [Commit], f.commit;
  }

  // ---- properties ----------------------------------------------------------------

  /** Each article row keeps its article's title, link, source and date, belongs
      to the report, and holds the sanitised content: valid UTF-8 without NUL,
      and the content itself when that already was. */
  lemma {:induction false} ArticleRowsFaithful(id: int, arts: seq<Article>)
    ensures forall k :: 0 <= k < |arts| ==>
      var row := ArticleRows(id, arts)[k];
      row == ArticleRow(id, arts[k].title, arts[k].link, arts[k].source, arts[k].pubDate, StoredContent(arts[k].content))
    decreases |arts|
  {
    if arts != [] {
      ArticleRowsFaithful(id, arts[..|arts| - 1]);
    }
  }

  lemma StoredArticleClean(id: int, a: Article)
    ensures NoNul(StoredArticle(id, a).content) && Valid(StoredArticle(id, a).content)
    ensures Valid(a.content) && NoNul(a.content) ==> StoredArticle(id, a) == ArticleRow(id, a.title, a.link, a.source, a.pubDate, a.content)
  {
    StoredContentIsClean(a.content);
    if Valid(a.content) && NoNul(a.content) {
      StoredContentKeepsClean(a.content);
    }
  }

  /** One key-event row per key event, in order, under the report. */
  lemma {:induction false} EventRowsFaithful(id: int, events: seq<Bytes>)
    ensures forall k :: 0 <= k < |events| ==> EventRows(id, events)[k] == EventRow(id, events[k])
    decreases |events|
  {
    if events != [] {
      EventRowsFaithful(id, events[..|events| - 1]);
    }
  }

  lemma {:induction false} GuideRowsFaithful(id: int, guides: seq<Bytes>)
    ensures forall k :: 0 <= k < |guides| ==> GuideRows(id, guides)[k] == GuideRow(id, guides[k])
    decreases |guides|
  {
    if guides != [] {
      GuideRowsFaithful(id, guides[..|guides| - 1]);
    }
  }

  /** A save fails exactly when a statement it issues fails. Once begun, it
      creates the parent row first and ends with a commit exactly when no
      statement before the commit failed, with a rollback otherwise; a child
      table gets one bulk insert, of all its rows, and none when it has no rows. */
  lemma TxShape(parent: Table, t1: Table, n1: nat, t2: Table, n2: nat, f: TxFaults)
    requires t1 != t2
    ensures TxError(n1, n2, f).None? <==>
      f.begin.None? && f.create.None? && (n1 == 0 || f.bulk1.None?) && (n2 == 0 || f.bulk2.None?) && f.commit.None?
    ensures var s := TxStatements(parent, t1, n1, t2, n2, f);
      (s == [] <==> f.begin.Some?) &&
      (s != [] ==> (|s| >= 3 && s[0] == Begin && s[1] == Create(parent) &&
        (s[|s| - 1] == Commit <==> f.create.None? && (n1 == 0 || f.bulk1.None?) && (n2 == 0 || f.bulk2.None?)) &&
        (s[|s| - 1] != Commit ==> s[|s| - 1] == Rollback)))
    ensures var s := TxStatements(parent, t1, n1, t2, n2, f);
      forall k :: 0 <= k < |s| && s[k].Bulk? ==>
        (s[k].table == t1 && s[k].rows == n1 > 0) || (s[k].table == t2 && s[k].rows == n2 > 0)
  {
  }

  /** A successful save of a report issues a bulk insert for exactly the
      non-empty child lists, each of all its rows. */
  lemma ReportBulks(report: DomainReport, f: TxFaults)
    requires TxError(|report.articles|, |report.keyEvents|, f).None?
    ensures ReportStatements(report, f) ==
      [Begin, Create(Reports)] +
      (if report.articles != [] then [Bulk(Articles, |report.articles|)] else []) +
      (if report.keyEvents != [] then [Bulk(KeyEvents, |report.keyEvents|)] else []) +
      [Commit]
  {
  }

  /** After an update, the run with the id carries the title and every other
      run is as it was. */
  lemma {:induction false} RetitledRuns(runs: seq<RunRow>, id: int, title: Bytes)
    ensures forall k :: 0 <= k < |runs| ==>
      Retitled(runs, id, title)[k] == if runs[k].id == id then runs[k].(title := title) else runs[k]
    decreases |runs|
  {
    if runs != [] {
      RetitledRuns(runs[..|runs| - 1], id, title);
    }
  }

  lemma RetitledKeepsIds(runs: seq<RunRow>, id: int, title: Bytes)
    ensures forall k :: 0 <= k < |runs| ==> Retitled(runs, id, title)[k].id == runs[k].id
  {
    RetitledRuns(runs, id, title);
  }

  /** GetUsersWithPersona returns exactly the users whose persona is not empty,
      in table order. */
  lemma {:induction false} PersonaUsersMembers(users: seq<User>)
    ensures forall u :: u in PersonaUsers(users) <==> u in users && u.persona != []
    decreases |users|
  {
    if users != [] {
      var pre := users[..|users| - 1];
      PersonaUsersMembers(pre);
      assert users == pre + [users[|users| - 1]];
    }
  }
}
