/**
 Reads through the cache with a time-to-live (get_me, list_recent, list_batches and get_batch of the
 services): what a reader may be shown while writes, evictions, cache failures and ineffective clears
 go on in any order. A clear is an eviction of any keys or of none; filling the cache may come any
 time after the read whose result it stores.
 */
module Caching {
  import opened Prelude
  import opened Paths
  import opened Database
  import S = Services
  import L = Listing
  import T = Tables
  import Uuid

  // ---------------------------------------------------------------------------
  // Queries, keys and answers
  // ---------------------------------------------------------------------------

  datatype Query = Me(id: string) | Recent | BatchList | BatchDetail(id: string)

  /** What is stored under a key, before and after JSON; the constructor is the shape of the text. */
  datatype Answer =
    | OneUser(id: Id, user: User)
    | Rows(rows: seq<Prediction>)
    | AllBatches(batches: map<Id, Batch>)
    | OneBatch(id: Id, batch: Batch)

  function Key(q: Query): string {
    match q
    case Me(id) => "user:" + id
    case Recent => "predictions:recent"
    case BatchList => "batches:list"
    case BatchDetail(id) => "batches:" + id
  }

  /** Seconds that an entry lives. */
  function Ttl(q: Query): nat {
    match q
    case Me(_) => 60
    case Recent => 15
    case BatchList => 30
    case BatchDetail(_) => 30
  }

  const RECENT := 50

  /** The repository's answer. */
  function Ask(db: Db, q: Query): Result<Answer, Refusal> {
    match q
    case Me(id) =>
      var u := LocateUser(db, id);
      if u.Ok? then Ok(OneUser(u.value, db.users[u.value])) else Err(u.error)
    case Recent => Ok(Rows(L.ListRecent(db.predictions, RECENT)))
    case BatchList => Ok(AllBatches(db.batches))
    case BatchDetail(id) =>
      match Uuid.Parse(id)
      case None => Err(BadUuid)
      case Some(b) => if b in db.batches then Ok(OneBatch(b, db.batches[b])) else Err(NotFound)
  }

  /** A stored text can be read back for a query when it has the shape that the query expects. */
  predicate Decodes(q: Query, answer: Answer) {
    match q
    case Me(_) => answer.OneUser?
    case Recent => answer.Rows?
    case BatchList => answer.AllBatches?
    case BatchDetail(_) => answer.OneBatch?
  }

  // ---------------------------------------------------------------------------
  // The machine
  // ---------------------------------------------------------------------------

  /** Something read from the database: by which query, with which answer, and when. */
  datatype Reading = Reading(query: Query, answer: Answer, at: nat)

  /** The reading that an entry stores, and when the entry goes away. */
  datatype Entry = Entry(reading: Reading, expires: nat)

  datatype State = State(db: Db, clock: nat, cache: map<string, Entry>, readings: seq<Reading>)

  const START := State(EMPTY_DB, 0, map[], [])

  datatype Event =
    | Tick(seconds: nat)
    | Write(t: S.Transaction)
    | Evict(keys: set<string>)
    | ReadDb(q: Query)
    | Fill(reading: nat)

  function Step(s: State, e: Event): State {
    match e
    case Tick(seconds) => s.(clock := s.clock + seconds)
    case Write(t) => s.(db := S.Commit(s.db, t))
    case Evict(keys) => s.(cache := s.cache - keys)
    case ReadDb(q) =>
      var r := Ask(s.db, q);
      if r.Ok? then s.(readings := s.readings + [Reading(q, r.value, s.clock)]) else s
    case Fill(i) =>
      if i < |s.readings| then
        var r := s.readings[i];
        s.(cache := s.cache[Key(r.query) := Entry(r, s.clock + Ttl(r.query))])
      else s
  }

  function Run(es: seq<Event>): State {
    if es == [] then START else Step(Run(es[..|es| - 1]), es[|es| - 1])
  }

  /** What the cache holds under a key and has not expired. */
  function Lookup(s: State, key: string): Option<Answer> {
    if key in s.cache && s.clock < s.cache[key].expires then Some(s.cache[key].reading.answer) else None
  }

  // ---------------------------------------------------------------------------
  // Keys
  // ---------------------------------------------------------------------------

  lemma PrefixesDiffer(a: string, b: string)
    ensures "user:" + a != "batches:" + b
    ensures "user:" + a != "predictions:recent" && "batches:" + b != "predictions:recent"
  {
    assert ("user:" + a)[0] == 'u' && ("batches:" + b)[0] == 'b' && "predictions:recent"[0] == 'p';
  }

  lemma SamePrefix(prefix: string, a: string, b: string)
    requires prefix + a == prefix + b
    ensures a == b
  {
    assert (prefix + a)[|prefix|..] == a && (prefix + b)[|prefix|..] == b;
  }

  lemma ListKey(id: string)
    ensures "batches:" + id == "batches:list" <==> id == "list"
  {
    assert "batches:" + "list" == "batches:list";
    if "batches:" + id == "batches:list" {
      SamePrefix("batches:", id, "list");
    }
  }

  predicate Collide(q: Query, q': Query) {
    q == BatchList && q' == BatchDetail("list")
  }

  /** Two queries share a key exactly when they are the same, or the batch list and a batch called "list". */
  lemma KeysCollide(q: Query, q': Query)
    ensures Key(q) == Key(q') <==> q == q' || Collide(q, q') || Collide(q', q)
  {
    var a := if q.Me? || q.BatchDetail? then q.id else "";
    var b := if q'.Me? || q'.BatchDetail? then q'.id else "";
    PrefixesDiffer(a, b);
    PrefixesDiffer(b, a);
    PrefixesDiffer(a, "list");
    PrefixesDiffer(b, "list");
    assert "batches:" + "list" == "batches:list";
    ListKey(a);
    ListKey(b);
    if q.Me? && q'.Me? && Key(q) == Key(q') {
      SamePrefix("user:", a, b);
    }
    if q.BatchDetail? && q'.BatchDetail? && Key(q) == Key(q') {
      SamePrefix("batches:", a, b);
    }
  }

  // ---------------------------------------------------------------------------
  // What the database answers
  // ---------------------------------------------------------------------------

  /** The newest rows, fifty of them or all. */
  predicate MostRecent(rows: seq<Prediction>, all: seq<Prediction>) {
    && rows <= L.NewestFirst(all)
    && |rows| == if |all| < 50 then |all| else 50
  }

  /** Each listed batch counts its documents. */
  predicate CountsDocuments(batches: map<Id, Batch>, db: Db) {
    forall b :: b in batches ==> batches[b].documentCount == |T.DocumentsOf(db.documents, b)|
  }

  /**
   After any run of transactions: a user with the current address and role, the fifty newest
   predictions, and batches with the number of their documents; a text that is no UUID or names no row
   is refused.
   */
  lemma {:induction false} AnswersAre(ts: seq<S.Transaction>, q: Query)
    ensures var db := S.Run(EMPTY_DB, ts);
            match q
            case Recent => exists rows :: Ask(db, q) == Ok(Rows(rows)) && MostRecent(rows, db.predictions)
            case BatchList => Ask(db, q) == Ok(AllBatches(db.batches)) && CountsDocuments(db.batches, db)
            case Me(id) =>
              (match Uuid.Parse(id)
               case None => Ask(db, q) == Err(BadUuid)
               case Some(u) => Ask(db, q) == if u in db.users then Ok(OneUser(u, db.users[u])) else Err(NotFound))
            case BatchDetail(id) =>
              (match Uuid.Parse(id)
               case None => Ask(db, q) == Err(BadUuid)
               case Some(b) =>
                 if b !in db.batches then Ask(db, q) == Err(NotFound)
                 else exists batch :: Ask(db, q) == Ok(OneBatch(b, batch))
                                      && batch.documentCount == |T.DocumentsOf(db.documents, b)|)
  {
    hide Uuid.Parse;
    T.TablesAlways(ts);
    hide S.Run;
    hide T.DocumentsOf;
    hide T.RowsInvariant;
    var db := S.Run(EMPTY_DB, ts);
    var sorted := L.NewestFirst(db.predictions);
    L.SortSorts(db.predictions);
    assert |multiset(sorted)| == |multiset(db.predictions)|;
    hide L.NewestFirst;
    hide L.Descending;
    assert MostRecent(L.ListRecent(db.predictions, 50), db.predictions);
  }

  // ---------------------------------------------------------------------------
  // What the cache holds was once true
  // ---------------------------------------------------------------------------

  /** After n events of the run, the database gave this answer. */
  ghost predicate HeldAfter(es: seq<Event>, n: nat, r: Reading) {
    n <= |es| && Ask(Run(es[..n]).db, r.query) == Ok(r.answer) && Run(es[..n]).clock == r.at
  }

  /** The database gave this answer at some moment of the run. */
  ghost predicate Made(es: seq<Event>, r: Reading) {
    exists n: nat :: HeldAfter(es, n, r)
  }

  lemma MadeStays(es: seq<Event>, e: Event, r: Reading)
    requires Made(es, r)
    ensures Made(es + [e], r)
  {
    var n: nat :| HeldAfter(es, n, r);
    assert (es + [e])[..n] == es[..n];
    assert HeldAfter(es + [e], n, r);
  }

  lemma AnswerDecodes(db: Db, q: Query)
    requires Ask(db, q).Ok?
    ensures Decodes(q, Ask(db, q).value)
  {
  }

  lemma StepReadings(s: State, e: Event)
    ensures Step(s, e).readings == s.readings
            || (e.ReadDb? && Ask(s.db, e.q).Ok?
                && Step(s, e).readings == s.readings + [Reading(e.q, Ask(s.db, e.q).value, s.clock)])
  {
    hide Ask;
    hide S.Commit;
  }

  lemma {:induction false} ReadingsMade(es: seq<Event>, i: nat)
    requires i < |Run(es).readings|
    ensures Made(es, Run(es).readings[i])
    ensures Decodes(Run(es).readings[i].query, Run(es).readings[i].answer)
  {
    hide Step;
    hide Ask;
    hide Decodes;
    if es != [] {
      var before, e := es[..|es| - 1], es[|es| - 1];
      var r := Run(es).readings[i];
      assert before + [e] == es;
      StepReadings(Run(before), e);
      if i < |Run(before).readings| {
        ReadingsMade(before, i);
        MadeStays(before, e, r);
      } else {
        AnswerDecodes(Run(before).db, e.q);
        assert HeldAfter(es, |before|, r);
      }
    }
  }

  /** Later events only add readings. */
  lemma {:induction false} ReadingsGrow(es: seq<Event>, n: nat)
    requires n <= |es|
    ensures Run(es[..n]).readings <= Run(es).readings
  {
    hide S.Commit;
    hide Ask;
    if n == |es| {
      assert es[..n] == es;
    } else {
      ReadingsGrow(es[..|es| - 1], n);
      assert es[..|es| - 1][..n] == es[..n];
    }
  }

  /** Every fill comes at most so many seconds after its read; none at all when the two are one step. */
  ghost predicate Prompt(es: seq<Event>, delay: nat) {
    forall k :: 0 <= k < |es| ==> PromptFill(Run(es[..k]), es[k], delay)
  }

  predicate PromptFill(s: State, e: Event, delay: nat) {
    e.Fill? && e.reading < |s.readings| ==> s.clock <= s.readings[e.reading].at + delay
  }

  lemma PromptBefore(es: seq<Event>, delay: nat)
    requires Prompt(es, delay) && es != []
    ensures Prompt(es[..|es| - 1], delay)
    ensures PromptFill(Run(es[..|es| - 1]), es[|es| - 1], delay)
  {
    var before := es[..|es| - 1];
    forall k | 0 <= k < |before|
      ensures PromptFill(Run(before[..k]), before[k], delay)
    {
      assert before[..k] == es[..k];
      assert PromptFill(Run(es[..k]), es[k], delay);
    }
  }

  predicate EntrySound(s: State, key: string, delay: nat)
    requires key in s.cache
  {
    var entry := s.cache[key];
    && Key(entry.reading.query) == key
    && entry.reading in s.readings
    && entry.expires <= entry.reading.at + delay + Ttl(entry.reading.query)
  }

  lemma EntryStep(s: State, e: Event, key: string, delay: nat)
    requires key in Step(s, e).cache && PromptFill(s, e, delay)
    requires key in s.cache ==> EntrySound(s, key, delay)
    ensures EntrySound(Step(s, e), key, delay)
  {
    hide S.Commit;
    hide Ask;
    hide Key;
    hide Ttl;
    if e.Fill? && e.reading < |s.readings| {
      assert s.readings[e.reading] in Step(s, e).readings;
    }
  }

  lemma {:induction false} EntriesSound(es: seq<Event>, key: string, delay: nat)
    requires Prompt(es, delay) && key in Run(es).cache
    ensures EntrySound(Run(es), key, delay)
  {
    hide Step;
    hide PromptFill;
    hide EntrySound;
    var before := es[..|es| - 1];
    PromptBefore(es, delay);
    if key in Run(before).cache {
      EntriesSound(before, key, delay);
    }
    EntryStep(Run(before), es[|es| - 1], key, delay);
  }

  // ---------------------------------------------------------------------------
  // Bounded staleness
  // ---------------------------------------------------------------------------

  /** The database gave this answer to this query less than so many seconds ago. */
  ghost predicate HeldWithin(es: seq<Event>, q: Query, answer: Answer, span: nat) {
    exists r: Reading :: r.query == q && r.answer == answer && Run(es).clock < r.at + span && Made(es, r)
  }

  lemma ListIsNoBatch(db: Db)
    ensures Ask(db, BatchDetail("list")).Err?
  {
    if Uuid.Parse("list").Some? {
      Uuid.TextIsPathSafe("list");
    }
  }

  /** Whose reading an entry stores: that of the query itself, or the list's under the key of batch "list". */
  lemma EntryQuery(es: seq<Event>, q: Query)
    requires Key(q) in Run(es).cache
    ensures var r := Run(es).cache[Key(q)].reading;
            (r.query == q || (q == BatchDetail("list") && r.query == BatchList))
            && Decodes(r.query, r.answer) && Made(es, r)
  {
    hide S.Commit;
    MaxDelay(es);
    var delay :| Prompt(es, delay);
    EntriesSound(es, Key(q), delay);
    var r := Run(es).cache[Key(q)].reading;
    var i :| 0 <= i < |Run(es).readings| && Run(es).readings[i] == r;
    ReadingsMade(es, i);
    KeysCollide(q, r.query);
    hide Key;
    hide Run;
    if q == BatchList && r.query == BatchDetail("list") {
      var n: nat :| HeldAfter(es, n, r);
      ListIsNoBatch(Run(es[..n]).db);
    }
  }

  lemma {:induction false} ClockGrows(es: seq<Event>, n: nat)
    requires n <= |es|
    ensures Run(es[..n]).clock <= Run(es).clock
  {
    hide S.Commit;
    hide Ask;
    if n == |es| {
      assert es[..n] == es;
    } else {
      ClockGrows(es[..|es| - 1], n);
      assert es[..|es| - 1][..n] == es[..n];
    }
  }

  /** Every run has some bound on the delay of its fills. */
  lemma MaxDelay(es: seq<Event>)
    ensures Prompt(es, Run(es).clock)
  {
    forall k | 0 <= k < |es|
      ensures PromptFill(Run(es[..k]), es[k], Run(es).clock)
    {
      ClockGrows(es, k);
    }
  }

  /**
   A stored text can be read back unless the query is the batch called "list" and the entry under its
   key is the list of batches: queries for UUID ids never meet a text of another shape.
   */
  lemma {:induction false} HitDecodes(es: seq<Event>, q: Query)
    requires Lookup(Run(es), Key(q)).Some?
    ensures Decodes(q, Lookup(Run(es), Key(q)).value) <==> q != BatchDetail("list")
  {
    EntryQuery(es, q);
    var r := Run(es).cache[Key(q)].reading;
    hide Run;
    hide Key;
    if q == BatchDetail("list") && r.query == q {
      var n: nat :| HeldAfter(es, n, r);
      ListIsNoBatch(Run(es[..n]).db);
    }
  }

  /**
   Bounded staleness: under any writes, evictions, faults and ineffective clears, what a hit shows is
   what the database held less than one time-to-live ago, plus the delay of the slowest fill.
   */
  lemma {:induction false} BoundedStaleness(es: seq<Event>, q: Query, delay: nat)
    requires Prompt(es, delay)
    requires Lookup(Run(es), Key(q)).Some? && Decodes(q, Lookup(Run(es), Key(q)).value)
    ensures HeldWithin(es, q, Lookup(Run(es), Key(q)).value, delay + Ttl(q))
  {
    EntryQuery(es, q);
    EntriesSound(es, Key(q), delay);
    hide Run;
    hide Key;
    hide Made;
  }

  // ---------------------------------------------------------------------------
  // Exactly when a read is fresh
  // ---------------------------------------------------------------------------

  /** Event k fills a key. */
  predicate FillsKey(es: seq<Event>, k: nat, key: string) {
    && k < |es| && es[k].Fill? && es[k].reading < |Run(es[..k]).readings|
    && Key(Run(es[..k]).readings[es[k].reading].query) == key
  }

  predicate EvictsKey(e: Event, key: string) {
    e.Evict? && key in e.keys
  }

  /** Event k fills a key, and no later event evicts it or fills it again. */
  ghost predicate Stands(es: seq<Event>, k: nat, key: string) {
    && FillsKey(es, k, key)
    && forall j: nat :: k < j < |es| ==> !FillsKey(es, j, key) && !EvictsKey(es[j], key)
  }

  /** What a fill at event k stores. */
  function EntryOf(es: seq<Event>, k: nat): Entry
    requires k < |es| && es[k].Fill? && es[k].reading < |Run(es[..k]).readings|
  {
    var s := Run(es[..k]);
    var r := s.readings[es[k].reading];
    Entry(r, s.clock + Ttl(r.query))
  }

  /** The fill stands and what it stored has not expired. */
  ghost predicate Live(es: seq<Event>, k: nat, key: string) {
    Stands(es, k, key) && Run(es).clock < EntryOf(es, k).expires
  }

  /** The last fill of a key that no eviction has followed. */
  function LastFill(es: seq<Event>, key: string): Option<nat> {
    if es == [] then None
    else if FillsKey(es, |es| - 1, key) then Some(|es| - 1)
    else if EvictsKey(es[|es| - 1], key) then None
    else LastFill(es[..|es| - 1], key)
  }

  /** How a step changes what is under a key. */
  lemma StepEntry(s: State, e: Event, key: string)
    ensures var cache' := Step(s, e).cache;
            if e.Fill? && e.reading < |s.readings| && Key(s.readings[e.reading].query) == key then
              key in cache'
              && cache'[key] == Entry(s.readings[e.reading], s.clock + Ttl(s.readings[e.reading].query))
            else if EvictsKey(e, key) then key !in cache'
            else (key in cache' <==> key in s.cache) && (key in s.cache ==> cache'[key] == s.cache[key])
  {
    hide S.Commit;
    hide Ask;
    hide Key;
    hide Ttl;
  }

  lemma SameFills(es: seq<Event>, k: nat, key: string)
    requires k + 1 < |es|
    ensures FillsKey(es, k, key) <==> FillsKey(es[..|es| - 1], k, key)
    ensures FillsKey(es, k, key) ==> EntryOf(es, k) == EntryOf(es[..|es| - 1], k)
  {
    hide Run;
    hide Key;
    assert es[..|es| - 1][..k] == es[..k];
  }

  lemma {:induction false} LastFillHolds(es: seq<Event>, key: string)
    ensures key in Run(es).cache <==> LastFill(es, key).Some?
    ensures LastFill(es, key).Some? ==>
              Stands(es, LastFill(es, key).value, key)
              && Run(es).cache[key] == EntryOf(es, LastFill(es, key).value)
  {
    hide Step;
    hide Key;
    hide Ttl;
    if es != [] {
      var before, e := es[..|es| - 1], es[|es| - 1];
      LastFillHolds(before, key);
      StepEntry(Run(before), e, key);
      if LastFill(es, key).Some? && LastFill(es, key).value < |before| {
        var k := LastFill(es, key).value;
        SameFills(es, k, key);
        forall j: nat | k < j < |es|
          ensures !FillsKey(es, j, key) && !EvictsKey(es[j], key)
        {
          if j < |before| {
            SameFills(es, j, key);
            assert es[j] == before[j];
          }
        }
      }
    }
  }

  /** At most one fill of a key stands. */
  lemma {:induction false} OneStands(es: seq<Event>, k: nat, key: string)
    requires Stands(es, k, key)
    ensures LastFill(es, key) == Some(k)
  {
    hide Run;
    hide Key;
    if k + 1 < |es| {
      var before := es[..|es| - 1];
      assert !FillsKey(es, |es| - 1, key) && !EvictsKey(es[|es| - 1], key);
      SameFills(es, k, key);
      forall j: nat | k < j < |before|
        ensures !FillsKey(before, j, key) && !EvictsKey(before[j], key)
      {
        SameFills(es, j, key);
        assert es[j] == before[j];
      }
      OneStands(before, k, key);
    }
  }

  /** The cache answers exactly while some fill of the key is neither evicted nor replaced nor expired. */
  lemma HitHasLiveFill(es: seq<Event>, key: string)
    ensures Lookup(Run(es), key).Some? <==> exists k: nat :: Live(es, k, key)
    ensures forall k: nat :: Live(es, k, key) ==>
              Run(es).cache[key] == EntryOf(es, k) && Lookup(Run(es), key) == Some(EntryOf(es, k).reading.answer)
  {
    LastFillHolds(es, key);
    hide Run;
    hide Key;
    hide EntryOf;
    hide LastFill;
    if Lookup(Run(es), key).Some? {
      assert Live(es, LastFill(es, key).value, key);
    }
    forall k: nat | Live(es, k, key)
      ensures LastFill(es, key) == Some(k)
    {
      OneStands(es, k, key);
    }
  }

  lemma {:induction false} StoodBefore(es: seq<Event>, n: nat, k: nat, key: string)
    requires k < n <= |es| && Stands(es, k, key)
    ensures key in Run(es[..n]).cache
  {
    hide Run;
    hide Key;
    var past := es[..n];
    assert past[..k] == es[..k];
    forall j: nat | k < j < n
      ensures !FillsKey(past, j, key) && !EvictsKey(past[j], key)
    {
      assert past[..j] == es[..j];
      assert !FillsKey(es, j, key);
    }
    assert Stands(past, k, key);
    OneStands(past, k, key);
    LastFillHolds(past, key);
  }

  /**
   Once a key has been cleared, a read misses if and only if no fill since then is still neither
   evicted nor replaced nor expired.
   */
  lemma MissAfterClear(es: seq<Event>, n: nat, key: string)
    requires n <= |es| && key !in Run(es[..n]).cache
    ensures Lookup(Run(es), key).None? <==> !exists k: nat :: n <= k && Live(es, k, key)
  {
    HitHasLiveFill(es, key);
    hide Run;
    hide Lookup;
    if k: nat :| Live(es, k, key) && k < n {
      StoodBefore(es, n, k, key);
    }
  }

  /** Event j is the read of the database that yielded reading i. */
  predicate ReadBy(es: seq<Event>, j: nat, i: nat) {
    && j < |es| && es[j].ReadDb? && |Run(es[..j]).readings| == i
    && Ask(Run(es[..j]).db, es[j].q).Ok?
  }

  /** Every reading was yielded by one read of the database, and holds its answer. */
  lemma {:induction false} ReadingHasRead(es: seq<Event>, i: nat) returns (j: nat)
    requires i < |Run(es).readings|
    ensures ReadBy(es, j, i)
    ensures Run(es).readings[i] == Reading(es[j].q, Ask(Run(es[..j]).db, es[j].q).value, Run(es[..j]).clock)
  {
    hide Step;
    hide Ask;
    var before, e := es[..|es| - 1], es[|es| - 1];
    StepReadings(Run(before), e);
    if i < |Run(before).readings| {
      j := ReadingHasRead(before, i);
      assert before[..j] == es[..j] && before[j] == es[j];
    } else {
      j := |before|;
    }
  }

  /** A read happened after the first n events exactly when its reading was not there then. */
  lemma ReadSince(es: seq<Event>, n: nat, j: nat, i: nat)
    requires n <= |es| && ReadBy(es, j, i)
    ensures n <= j <==> |Run(es[..n]).readings| <= i
  {
    hide Ask;
    if n <= j {
      ReadingsGrow(es[..j], n);
      assert es[..j][..n] == es[..n];
    } else {
      ReadingsGrow(es[..n], j + 1);
      assert es[..n][..j + 1] == es[..j + 1];
      assert es[..j + 1][..j] == es[..j];
      StepReadings(Run(es[..j]), es[j]);
      hide Step;
    }
  }

  /** A hit shows the answer that the database gave to the read at event j. */
  ghost predicate ShowsRead(es: seq<Event>, j: nat, key: string) {
    exists k: nat :: Live(es, k, key) && ReadBy(es, j, es[k].reading)
                     && Lookup(Run(es), key) == Some(Ask(Run(es[..j]).db, es[j].q).value)
  }

  /** A read now misses, or is answered from a read of the database at event n or later. */
  ghost predicate ShowsSince(es: seq<Event>, n: nat, key: string) {
    Lookup(Run(es), key).None? || exists j: nat :: n <= j && ShowsRead(es, j, key)
  }

  /** A reading that was there after the first n events has been filled, and the fill is still live. */
  ghost predicate LateFillLives(es: seq<Event>, n: nat, key: string)
    requires n <= |es|
  {
    exists k: nat :: Live(es, k, key) && es[k].reading < |Run(es[..n]).readings|
  }

  lemma LiveFillShowsRead(es: seq<Event>, n: nat, k: nat, key: string) returns (j: nat)
    requires n <= |es| && Live(es, k, key)
    ensures ShowsRead(es, j, key)
    ensures n <= j <==> |Run(es[..n]).readings| <= es[k].reading
  {
    hide Ask;
    hide Key;
    HitHasLiveFill(es, key);
    ReadingsGrow(es, k);
    assert es[k].reading < |Run(es).readings|;
    j := ReadingHasRead(es, es[k].reading);
    ReadSince(es, n, j, es[k].reading);
    hide Run;
    hide Lookup;
  }

  /** All live fills of a key are the same one, so they show the same read. */
  lemma ShownReadIsSince(es: seq<Event>, n: nat, k: nat, j: nat, key: string)
    requires n <= |es| && Live(es, k, key) && ShowsRead(es, j, key)
    ensures n <= j <==> |Run(es[..n]).readings| <= es[k].reading
  {
    hide Run;
    hide Ask;
    hide Key;
    hide Lookup;
    var k': nat :| Live(es, k', key) && ReadBy(es, j, es[k'].reading);
    OneStands(es, k, key);
    OneStands(es, k', key);
    ReadSince(es, n, j, es[k].reading);
  }

  /**
   Exactly when a read after event n is answered from a read of the database at that event or later:
   if and only if no fill of its key with a reading that was already there at event n is still live.
   That is what the promise of a fresh read after a role change takes. When such a fill lives, the
   read shows what the database answered before the event.
   */
  lemma FreshExactlyWhen(es: seq<Event>, n: nat, key: string)
    requires n <= |es|
    ensures ShowsSince(es, n, key) <==> !LateFillLives(es, n, key)
    ensures LateFillLives(es, n, key) ==> exists j: nat :: j < n && ShowsRead(es, j, key)
  {
    HitHasLiveFill(es, key);
    hide Run;
    hide Ask;
    hide Key;
    hide Lookup;
    hide ShowsRead;
    if k: nat :| Live(es, k, key) {
      var j := LiveFillShowsRead(es, n, k, key);
      forall j': nat | ShowsRead(es, j', key)
        ensures n <= j' <==> |Run(es[..n]).readings| <= es[k].reading
      {
        ShownReadIsSince(es, n, k, j', key);
      }
      forall k': nat | Live(es, k', key)
        ensures es[k'].reading < |Run(es[..n]).readings| <==> es[k].reading < |Run(es[..n]).readings|
      {
        ShownReadIsSince(es, n, k', j, key);
      }
    }
  }

  lemma RunOn(es: seq<Event>, e: Event)
    ensures Run([]) == START
    ensures Run(es + [e]) == Step(Run(es), e)
    ensures forall delay :: Prompt([], delay)
    ensures forall delay :: Prompt(es, delay) && PromptFill(Run(es), e, delay) ==> Prompt(es + [e], delay)
  {
    hide Step;
    hide PromptFill;
    var on := es + [e];
    assert on[..|on| - 1] == es;
    forall delay | Prompt(es, delay) && PromptFill(Run(es), e, delay)
      ensures Prompt(on, delay)
    {
      forall k | 0 <= k < |on|
        ensures PromptFill(Run(on[..k]), on[k], delay)
      {
        assert on[..k] == es[..k];
        if k == |es| {
          assert es[..k] == es;
        }
      }
    }
  }

  /**
   An answer that is read, stored at once and left alone is shown for a minute for a user, for fifteen
   seconds for the recent predictions, for half a minute for batches, and no longer.
   */
  lemma {:induction false} AnswersForItsTime(es: seq<Event>, q: Query, seconds: nat)
    requires Ask(Run(es).db, q).Ok?
    ensures var later := es + [ReadDb(q)] + [Fill(|Run(es).readings|)] + [Tick(seconds)];
            var span := match q { case Me(_) => 60 case Recent => 15 case BatchList => 30 case BatchDetail(_) => 30 };
            Lookup(Run(later), Key(q)) == if seconds < span then Some(Ask(Run(es).db, q).value) else None
  {
    hide Key;
    hide Ask;
    var es1 := es + [ReadDb(q)];
    var es2 := es1 + [Fill(|Run(es).readings|)];
    RunOn(es, ReadDb(q));
    RunOn(es1, Fill(|Run(es).readings|));
    RunOn(es2, Tick(seconds));
    hide Run;
  }

  /** Two registrations, and the first user makes the second one an admin. */
  lemma TwoUsers(a: Id, b: Id)
    requires a != b
    ensures var db1 := S.Commit(EMPTY_DB, S.Http(S.PostRegister("a", a)));
            var db2 := S.Commit(db1, S.Http(S.PostRegister("b", b)));
            var db3 := S.Commit(db2, S.Http(S.PatchRole(a, Uuid.Print(b), Admin)));
            && db2 == EMPTY_DB.(users := map[a := User("a", Admin), b := User("b", Reviewer)])
            && b in db3.users && db3.users[b] == User("b", Admin)
  {
    Uuid.ParsePrint(b);
    hide Uuid.Parse;
    hide Uuid.Print;
    var db1 := EMPTY_DB.(users := map[a := User("a", Admin)]);
    assert Admins(EMPTY_DB.users) == {};
    assert S.Commit(EMPTY_DB, S.Http(S.PostRegister("a", a))) == db1;
    assert Admins(db1.users) == {a};
  }

  /** A read, a clear of its key, a write, and only then the fill. */
  function LateFill(es: seq<Event>, q: Query, t: S.Transaction): seq<Event> {
    es + [ReadDb(q)] + [Evict({Key(q)})] + [Write(t)] + [Fill(|Run(es).readings|)]
  }

  /**
   Clearing is not enough: after any run, a reader that asked before a write and fills the cache after
   it leaves the former answer to be shown, although the key was cleared in between.
   */
  lemma {:induction false} LateFillShowsFormer(es: seq<Event>, q: Query, t: S.Transaction)
    requires Ask(Run(es).db, q).Ok?
    ensures var late := LateFill(es, q, t);
            && Run(late).db == S.Commit(Run(es).db, t)
            && Lookup(Run(late), Key(q)) == Some(Ask(Run(es).db, q).value)
    ensures Prompt(es, 0) ==> Prompt(LateFill(es, q, t), 0)
  {
    hide Key;
    hide Ask;
    hide S.Commit;
    var es1 := es + [ReadDb(q)];
    var es2 := es1 + [Evict({Key(q)})];
    var es3 := es2 + [Write(t)];
    RunOn(es, ReadDb(q));
    RunOn(es1, Evict({Key(q)}));
    RunOn(es2, Write(t));
    RunOn(es3, Fill(|Run(es).readings|));
    hide Run;
  }

  /** So the read that follows a role change may still show the former role. */
  lemma {:induction false} RoleChangeMayStayUnseen(a: Id, b: Id)
    requires a != b
    ensures var q := Me(Uuid.Print(b));
            var late := LateFill([Write(S.Http(S.PostRegister("a", a))), Write(S.Http(S.PostRegister("b", b)))],
                                 q, S.Http(S.PatchRole(a, Uuid.Print(b), Admin)));
            && Prompt(late, 0)
            && Ask(Run(late).db, q) == Ok(OneUser(b, User("b", Admin)))
            && Lookup(Run(late), Key(q)) == Some(OneUser(b, User("b", Reviewer)))
  {
    var q := Me(Uuid.Print(b));
    var e1 := Write(S.Http(S.PostRegister("a", a)));
    var e2 := Write(S.Http(S.PostRegister("b", b)));
    TwoUsers(a, b);
    Uuid.ParsePrint(b);
    hide Uuid.Parse;
    hide Uuid.Print;
    hide Key;
    hide S.Commit;
    RunOn([], e1);
    RunOn([e1], e2);
    assert [] + [e1] == [e1] && [e1] + [e2] == [e1, e2];
    hide Run;
    LateFillShowsFormer([e1, e2], q, S.Http(S.PatchRole(a, Uuid.Print(b), Admin)));
    hide LateFill;
  }

  // ---------------------------------------------------------------------------
  // The services' reads
  // ---------------------------------------------------------------------------

  lemma HeldNow(es: seq<Event>, q: Query, delay: nat)
    requires Ask(Run(es).db, q).Ok?
    ensures HeldWithin(es, q, Ask(Run(es).db, q).value, delay + Ttl(q))
  {
    hide Ask;
    var r := Reading(q, Ask(Run(es).db, q).value, Run(es).clock);
    assert es[..|es|] == es;
    assert HeldAfter(es, |es|, r);
    hide Run;
    assert Made(es, r);
  }

  /** However late the fills of a run are, the answer is no older than that and a time-to-live. */
  ghost predicate Current(es: seq<Event>, q: Query, answer: Answer) {
    forall delay: nat :: Prompt(es, delay) ==> HeldWithin(es, q, answer, delay + Ttl(q))
  }

  lemma HitIsCurrent(es: seq<Event>, q: Query)
    requires Lookup(Run(es), Key(q)).Some? && Decodes(q, Lookup(Run(es), Key(q)).value)
    ensures Current(es, q, Lookup(Run(es), Key(q)).value)
  {
    hide Run;
    hide Key;
    hide Lookup;
    forall delay: nat | Prompt(es, delay)
      ensures HeldWithin(es, q, Lookup(Run(es), Key(q)).value, delay + Ttl(q))
    {
      BoundedStaleness(es, q, delay);
    }
  }

  lemma AnswerIsCurrent(es: seq<Event>, q: Query)
    requires Ask(Run(es).db, q).Ok?
    ensures Current(es, q, Ask(Run(es).db, q).value)
  {
    hide Run;
    hide Ask;
    forall delay: nat | Prompt(es, delay)
      ensures HeldWithin(es, q, Ask(Run(es).db, q).value, delay + Ttl(q))
    {
      HeldNow(es, q, delay);
    }
  }

  datatype ReadError = Undecodable | Refused(refusal: Refusal)

  /** The cache and the database behind the read side of the services. */
  class ReadSide {
    var state: State
    ghost var trace: seq<Event>

    ghost predicate Valid()
      reads this
    {
      state == Run(trace)
    }

    constructor ()
      ensures Valid() && state == START && trace == []
    {
      state := START;
      trace := [];
    }

    method Do(e: Event)
      requires Valid()
      modifies this
      ensures Valid() && state == Step(old(state), e) && trace == old(trace) + [e]
    {
      state := Step(state, e);
      trace := trace + [e];
      assert trace[..|trace| - 1] == old(trace);
    }

    method DoAll(es: seq<Event>)
      requires Valid()
      modifies this
      ensures Valid() && trace == old(trace) + es
    {
      hide Step;
      hide Run;
      for k := 0 to |es|
        invariant Valid() && trace == old(trace) + es[..k]
      {
        Do(es[k]);
        assert es[..k + 1] == es[..k] + [es[k]];
      }
      assert es[..|es|] == es;
    }

    /**
     `get_me`, `list_recent`, `list_batches` and `get_batch`: look into the cache, else ask the
     database and fill the cache. Both cache calls may fail unnoticed, and others act before the fill.
     What is returned was held by the database less than a time-to-live ago; a refusal is the
     database's own, and only for a batch called "list" may the stored text be of the wrong shape.
     */
    method Read(q: Query, getFails: bool, meanwhile: seq<Event>, setFails: bool)
      returns (r: Result<Answer, ReadError>)
      requires Valid()
      modifies this
      ensures Valid()
      ensures var hit := Lookup(old(state), Key(q)).Some? && !getFails;
              var asked := Ask(old(state).db, q);
              && (hit ==> trace == old(trace)
                          && (r.Ok? <==> q != BatchDetail("list")) && (r.Err? ==> r.error == Undecodable))
              && (!hit && asked.Ok? ==>
                    r == Ok(asked.value)
                    && trace == old(trace) + [ReadDb(q)] + meanwhile
                                + if setFails then [] else [Fill(|old(state).readings|)])
              && (!hit && asked.Err? ==> r == Err(Refused(asked.error)) && trace == old(trace))
      ensures r.Ok? ==> Decodes(q, r.value) && Current(old(trace), q, r.value)
    {
      hide Step;
      hide Run;
      hide Key;
      hide Current;
      var cached := if getFails then None else Lookup(state, Key(q));
      if cached.Some? {
        HitDecodes(trace, q);
        if !Decodes(q, cached.value) {
          return Err(Undecodable);
        }
        HitIsCurrent(trace, q);
        return Ok(cached.value);
      }
      var asked := Ask(state.db, q);
      if asked.Err? {
        return Err(Refused(asked.error));
      }
      AnswerDecodes(state.db, q);
      AnswerIsCurrent(trace, q);
      var i := |state.readings|;
      Do(ReadDb(q));
      DoAll(meanwhile);
      if !setFails {
        Do(Fill(i));
      }
      return Ok(asked.value);
    }
  }
}
