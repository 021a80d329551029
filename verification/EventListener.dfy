/**
 * Polling the vault's events: a paginated scan that advances `startLedger`. Polls fire on a timer, so they may
 * overlap, and each may fail at any await.
 */
module EventListener {
  import opened Prelude

  const EVENT_PAGE_LIMIT: nat := 1000

  datatype Event = Event(id: string, ledger: int, topics: seq<string>)

  datatype Kind = Deposit | Withdraw | Other

  predicate Includes(text: string, part: string) {
    part <= text || (text != [] && Includes(text[1..], part))
  }

  predicate AnyTopic(topics: seq<string>, part: string) {
    exists i :: 0 <= i < |topics| && Includes(topics[i], part)
  }

  function Classify(topics: seq<string>): Kind {
    if AnyTopic(topics, "deposit") then Deposit
    else if AnyTopic(topics, "withdraw") then Withdraw
    else Other
  }

  predicate Wanted(e: Event) { Classify(e.topics) != Other }

  predicate StandsAt(topics: seq<string>, topic: nat, offset: nat, word: string) {
    topic < |topics| && offset + |word| <= |topics[topic]| && topics[topic][offset..offset + |word|] == word
  }

  /** Some topic holds the word, at whatever offset. */
  ghost predicate Names(topics: seq<string>, word: string) {
    exists topic, offset :: StandsAt(topics, topic, offset, word)
  }

  lemma {:induction false} StandsAtIsIncluded(topics: seq<string>, topic: nat, offset: nat, word: string)
    requires StandsAt(topics, topic, offset, word)
    ensures Includes(topics[topic], word)
    decreases offset
  {
    var text := topics[topic];
    if offset > 0 {
      assert text[1..][offset - 1..offset - 1 + |word|] == text[offset..offset + |word|];
      StandsAtIsIncluded([text[1..]], 0, offset - 1, word);
    }
  }

  lemma {:induction false} IncludedStandsSomewhere(text: string, word: string) returns (offset: nat)
    requires Includes(text, word)
    ensures StandsAt([text], 0, offset, word)
  {
    if word <= text {
      offset := 0;
    } else {
      var rest := IncludedStandsSomewhere(text[1..], word);
      offset := rest + 1;
      assert text[1..][rest..rest + |word|] == text[offset..offset + |word|];
    }
  }

  lemma AnyTopicIff(topics: seq<string>, word: string)
    ensures AnyTopic(topics, word) <==> Names(topics, word)
  {
    if AnyTopic(topics, word) {
      var i :| 0 <= i < |topics| && Includes(topics[i], word);
      var offset := IncludedStandsSomewhere(topics[i], word);
      assert StandsAt(topics, i, offset, word);
    }
    if Names(topics, word) {
      var topic, offset :| StandsAt(topics, topic, offset, word);
      StandsAtIsIncluded(topics, topic, offset, word);
    }
  }

  /** What the topics say: a deposit if some topic holds that word, else a withdrawal if some topic holds that one. */
  ghost predicate IsKind(topics: seq<string>, kind: Kind) {
    match kind
    case Deposit => Names(topics, "deposit")
    case Withdraw => !Names(topics, "deposit") && Names(topics, "withdraw")
    case Other => !Names(topics, "deposit") && !Names(topics, "withdraw")
  }

  lemma ClassifyIff(e: Event, kind: Kind)
    ensures Classify(e.topics) == kind <==> IsKind(e.topics, kind)
    ensures Wanted(e) <==> Names(e.topics, "deposit") || Names(e.topics, "withdraw")
  {
    AnyTopicIff(e.topics, "deposit");
    AnyTopicIff(e.topics, "withdraw");
  }

  /** The vault's whole event history, in ledger order. */
  predicate IsHistory(history: seq<Event>) {
    && (forall i, j :: 0 <= i < j < |history| ==> history[i].ledger <= history[j].ledger)
    && (forall i, j :: 0 <= i < j < |history| ==> history[i].id != history[j].id)
  }

  /** How many events precede ledger `l`: the position at which a scan from `l` starts. */
  function Before(history: seq<Event>, l: int): (n: nat)
    ensures n <= |history|
    ensures IsHistory(history) ==> forall i :: 0 <= i < |history| ==> (history[i].ledger < l <==> i < n)
  {
    if history == [] then 0
    else if history[|history| - 1].ledger < l then |history|
    else Before(history[..|history| - 1], l)
  }

  lemma BeforeIsMonotone(history: seq<Event>, l: int, m: int)
    requires IsHistory(history) && l <= m
    ensures Before(history, l) <= Before(history, m)
  {
    var n := Before(history, m);
    assert n < |history| ==> m <= history[n].ledger;
  }

  /** The end of a page that starts at `from`, when ledgers up to `visible` are known. */
  function PageEnd(history: seq<Event>, from: nat, visible: int): (end: nat)
    requires from <= |history|
    ensures from <= end <= |history| && end - from <= 1000
    ensures IsHistory(history) && end - from < 1000 ==>
      forall i :: 0 <= i < |history| && history[i].ledger <= visible ==> i < end
    ensures IsHistory(history) ==> forall i :: from <= i < end ==> history[i].ledger <= visible
  {
    Min(from + EVENT_PAGE_LIMIT, Max(from, Before(history, visible + 1)))
  }

  /** A page that is not full ends the scan at the last visible event. */
  lemma ShortPageEndsScan(history: seq<Event>, first: nat, from: nat, visible: int)
    requires IsHistory(history) && first <= from <= |history|
    requires first < from ==> from <= Before(history, visible + 1)
    requires PageEnd(history, from, visible) - from < EVENT_PAGE_LIMIT
    ensures PageEnd(history, from, visible) == Max(first, Before(history, visible + 1))
  {
  }

  /** A full page leaves the scan at or before the last visible event, now and later. */
  lemma FullPageStaysVisible(history: seq<Event>, from: nat, visible: int, later: int)
    requires IsHistory(history) && from <= |history| && visible <= later
    requires PageEnd(history, from, visible) - from >= EVENT_PAGE_LIMIT
    ensures PageEnd(history, from, visible) <= Before(history, later + 1)
  {
    BeforeIsMonotone(history, visible + 1, later + 1);
  }

  datatype Row = Row(id: string, kind: Kind, ledger: int)

  predicate HasRow(rows: seq<Row>, id: string) { exists i :: 0 <= i < |rows| && rows[i].id == id }

  /** INSERT ... ON CONFLICT DO NOTHING. */
  function InsertRow(rows: seq<Row>, e: Event): seq<Row> {
    if HasRow(rows, e.id) then rows else rows + [Row(e.id, Classify(e.topics), e.ledger)]
  }

  // ---------------------------------------------------------------- one poll

  /** The wanted events among history[from..upto], in order. */
  function WantedIds(history: seq<Event>, from: nat, upto: nat): seq<string>
    requires from <= upto <= |history|
  {
    if from == upto then []
    else WantedIds(history, from, upto - 1) + if Wanted(history[upto - 1]) then [history[upto - 1].id] else []
  }

  /** The rows after the wanted events of history[from..upto] were inserted, each while the database was up. */
  function RowsAfter(rows: seq<Row>, history: seq<Event>, from: nat, upto: nat, dbUp: string -> bool): seq<Row>
    requires from <= upto <= |history|
  {
    if from == upto then rows
    else
      var sofar := RowsAfter(rows, history, from, upto - 1, dbUp);
      var e := history[upto - 1];
      if Wanted(e) && dbUp(e.id) then InsertRow(sofar, e) else sofar
  }

  /** From `handed` and `rows` to `handed2` and `rows2` by handing over the wanted events among history[from..upto]. */
  ghost predicate Scanned(
    handed: seq<string>, rows: seq<Row>, handed2: seq<string>, rows2: seq<Row>,
    history: seq<Event>, from: nat, upto: nat, dbUp: string -> bool)
    requires from <= upto <= |history|
  {
    && handed2 == handed + WantedIds(history, from, upto)
    && rows2 == RowsAfter(rows, history, from, upto, dbUp)
  }

  class Listener {
    var startLedger: int
    var handed: seq<string>     // events given to the store, in order
    var rows: seq<Row>

    constructor (latestLedger: int)
      ensures startLedger == latestLedger && handed == [] && rows == []
    {
      startLedger, handed, rows := latestLedger, [], [];
    }

    /** A database error is logged and swallowed. */
    method LogEventToDb(e: Event, dbUp: bool)
      modifies this`rows, this`handed
      ensures handed == old(handed) + [e.id]
      ensures rows == if dbUp then InsertRow(old(rows), e) else old(rows)
      ensures dbUp && !HasRow(old(rows), e.id) ==>
        exists kind :: IsKind(e.topics, kind) && rows == old(rows) + [Row(e.id, kind, e.ledger)]
    {
      ClassifyIff(e, Classify(e.topics));
      handed := handed + [e.id];
      if dbUp && !HasRow(rows, e.id) {
        rows := rows + [Row(e.id, Classify(e.topics), e.ledger)];
      }
    }

    /** Hand over the events of one page; processing event `broken` throws. */
    method ProcessPage(history: seq<Event>, from: nat, upto: nat, dbUp: string -> bool, broken: Option<nat>)
      returns (ok: bool)
      requires from <= upto <= |history|
      modifies this`handed, this`rows
      ensures ok ==> Scanned(old(handed), old(rows), handed, rows, history, from, upto, dbUp)
      ensures ok <==> !(broken.Some? && from <= broken.value < upto)
    {
      for i := from to upto
        invariant Scanned(old(handed), old(rows), handed, rows, history, from, i, dbUp)
        invariant !(broken.Some? && from <= broken.value < i)
      {
        var e := history[i];
        ghost var handedBefore, rowsBefore := handed, rows;
        if Wanted(e) {
          LogEventToDb(e, dbUp(e.id));
        }
        ScannedOneMore(old(handed), old(rows), handedBefore, rowsBefore, history, from, i, dbUp);
        if broken == Some(i) {
          return false;
        }
      }
      ok := true;
    }

    /**
     * The paging loop. The first page knows the ledgers up to `visible`, and `growth(k)` more are closed before
     * page k + 1 is requested; `broken` is the event whose processing throws, if one does.
     */
    method ScanPages(
      history: seq<Event>, first: nat, visible: int, growth: nat -> nat, dbUp: string -> bool, broken: Option<nat>)
      returns (ok: bool, latest: int)
      requires IsHistory(history) && first <= |history|
      modifies this`handed, this`rows
      ensures ok ==>
        && visible <= latest
        && Scanned(old(handed), old(rows), handed, rows, history, first, Max(first, Before(history, latest + 1)), dbUp)
      ensures !ok ==> broken.Some?
    {
      var from, pageNumber := first, 0;
      latest := visible;
      while true
        invariant first <= from <= |history|
        invariant visible <= latest
        invariant first < from ==> from <= Before(history, latest + 1)
        invariant Scanned(old(handed), old(rows), handed, rows, history, first, from, dbUp)
        decreases |history| - from
      {
        var pageEnd := PageEnd(history, from, latest);
        ghost var handedBefore, rowsBefore := handed, rows;
        ok := ProcessPage(history, from, pageEnd, dbUp, broken);
        if !ok {
          return;
        }
        ScannedFurther(old(handed), old(rows), handedBefore, rowsBefore, handed, rows, history, first, from, pageEnd, dbUp);
        if pageEnd - from < EVENT_PAGE_LIMIT {
          ShortPageEndsScan(history, first, from, latest);
          return;
        }
        FullPageStaysVisible(history, from, latest, latest + growth(pageNumber));
        var pageLatest := latest + growth(pageNumber);
        from, pageNumber := pageEnd, pageNumber + 1;
        latest := Max(latest, pageLatest);
      }
    }

    /** One poll with nothing in between. */
    method Poll(
      history: seq<Event>, visible: int, growth: nat -> nat, dbUp: string -> bool, broken: Option<nat>)
      returns (ok: bool, latest: int)
      requires IsHistory(history)
      modifies this
      ensures ok ==> visible <= latest && startLedger == Max(old(startLedger), latest + 1)
      ensures ok ==>
        var first := Before(history, old(startLedger));
        Scanned(old(handed), old(rows), handed, rows, history, first, Max(first, Before(history, latest + 1)), dbUp)
      ensures !ok ==> broken.Some? && startLedger == old(startLedger)
    {
      ok, latest := ScanPages(history, Before(history, startLedger), visible, growth, dbUp, broken);
      if ok {
        startLedger := Max(startLedger, latest + 1);
      }
    }
  }

  lemma ScannedOneMore(
    handed: seq<string>, rows: seq<Row>, handed2: seq<string>, rows2: seq<Row>,
    history: seq<Event>, from: nat, i: nat, dbUp: string -> bool)
    requires from <= i < |history| && Scanned(handed, rows, handed2, rows2, history, from, i, dbUp)
    ensures var e := history[i];
      Scanned(handed, rows,
              if Wanted(e) then handed2 + [e.id] else handed2,
              if Wanted(e) && dbUp(e.id) then InsertRow(rows2, e) else rows2,
              history, from, i + 1, dbUp)
  {
  }

  lemma ScannedFurther(
    handed: seq<string>, rows: seq<Row>, handed2: seq<string>, rows2: seq<Row>, handed3: seq<string>, rows3: seq<Row>,
    history: seq<Event>, from: nat, mid: nat, upto: nat, dbUp: string -> bool)
    requires from <= mid <= upto <= |history|
    requires Scanned(handed, rows, handed2, rows2, history, from, mid, dbUp)
    requires Scanned(handed2, rows2, handed3, rows3, history, mid, upto, dbUp)
    ensures Scanned(handed, rows, handed3, rows3, history, from, upto, dbUp)
  {
    var first, second := WantedIds(history, from, mid), WantedIds(history, mid, upto);
    SplitScan(rows, history, from, mid, upto, dbUp);
    assert handed + (first + second) == (handed + first) + second;
  }

  /** What a scan hands over: the events of its stretch with a topic that holds "deposit" or "withdraw". */
  lemma {:induction false} WantedIdsIff(history: seq<Event>, from: nat, upto: nat, i: nat)
    requires IsHistory(history) && from <= upto <= |history| && i < |history|
    ensures history[i].id in WantedIds(history, from, upto)
      <==> from <= i < upto && (Names(history[i].topics, "deposit") || Names(history[i].topics, "withdraw"))
    decreases upto
  {
    ClassifyIff(history[i], Other);
    if from < upto {
      WantedIdsIff(history, from, upto - 1, i);
    }
  }

  lemma {:induction false} NoRowBeforeItsTurn(
    rows: seq<Row>, history: seq<Event>, from: nat, upto: nat, dbUp: string -> bool, i: nat)
    requires IsHistory(history) && from <= upto <= |history| && from <= i < |history|
    requires !HasRow(rows, history[i].id)
    ensures HasRow(RowsAfter(rows, history, from, upto, dbUp), history[i].id) ==> i < upto
    decreases upto
  {
    if from < upto {
      NoRowBeforeItsTurn(rows, history, from, upto - 1, dbUp, i);
    }
  }

  lemma {:induction false} RowsAfterByKind(
    rows: seq<Row>, history: seq<Event>, from: nat, upto: nat, dbUp: string -> bool, i: nat, kind: Kind)
    requires IsHistory(history) && from <= upto <= |history| && from <= i < |history|
    requires !HasRow(rows, history[i].id)
    ensures Row(history[i].id, kind, history[i].ledger) in RowsAfter(rows, history, from, upto, dbUp)
      <==> i < upto && dbUp(history[i].id) && Wanted(history[i]) && kind == Classify(history[i].topics)
    decreases upto
  {
    if from < upto {
      var sofar, e := RowsAfter(rows, history, from, upto - 1, dbUp), history[upto - 1];
      RowsAfterByKind(rows, history, from, upto - 1, dbUp, i, kind);
      NoRowBeforeItsTurn(rows, history, from, upto - 1, dbUp, i);
      NoRowYet(sofar, history, upto - 1, i, kind);
      assert RowsAfter(rows, history, from, upto, dbUp) == if Wanted(e) && dbUp(e.id) then InsertRow(sofar, e) else sofar;
    }
  }

  /** The row that a scan writes for an event, if it writes one: its id, its ledger and the kind its topics say. */
  lemma RowsAfterIff(
    rows: seq<Row>, history: seq<Event>, from: nat, upto: nat, dbUp: string -> bool, i: nat, kind: Kind)
    requires IsHistory(history) && from <= upto <= |history| && from <= i < |history|
    requires !HasRow(rows, history[i].id)
    ensures Row(history[i].id, kind, history[i].ledger) in RowsAfter(rows, history, from, upto, dbUp)
      <==> i < upto && dbUp(history[i].id) && !kind.Other? && IsKind(history[i].topics, kind)
  {
    RowsAfterByKind(rows, history, from, upto, dbUp, i, kind);
    ClassifyIff(history[i], kind);
  }

  /** One more insertion, of this event or of another. */
  lemma NoRowYet(sofar: seq<Row>, history: seq<Event>, n: nat, i: nat, kind: Kind)
    requires IsHistory(history) && n < |history| && i < |history|
    requires HasRow(sofar, history[i].id) ==> i < n
    ensures Row(history[i].id, kind, history[i].ledger) in InsertRow(sofar, history[n])
      <==> Row(history[i].id, kind, history[i].ledger) in sofar || (i == n && kind == Classify(history[n].topics))
  {
    var after := InsertRow(sofar, history[n]);
    assert sofar <= after;
  }

  lemma {:induction false} SplitScan(
    rows: seq<Row>, history: seq<Event>, from: nat, mid: nat, upto: nat, dbUp: string -> bool)
    requires from <= mid <= upto <= |history|
    ensures WantedIds(history, from, upto) == WantedIds(history, from, mid) + WantedIds(history, mid, upto)
    ensures RowsAfter(rows, history, from, upto, dbUp)
         == RowsAfter(RowsAfter(rows, history, from, mid, dbUp), history, mid, upto, dbUp)
    decreases upto
  {
    if mid < upto {
      SplitScan(rows, history, from, mid, upto - 1, dbUp);
    }
  }

  // ---------------------------------------------------------------- overlapping polls

  datatype Poll = Poll(start: int, next: nat, end: nat, full: bool, latest: int, over: bool)

  /** `accepted` remembers the events for which some insert succeeded. */
  datatype State = State(
    startLedger: int, visible: int, polls: seq<Poll>, handed: set<string>, accepted: set<string>, rows: seq<Row>)

  datatype Step =
    | Grow(ledgers: nat)                  // the chain closes ledgers
    | Begin                               // the timer fires: request and receive the first page
    | Handle(poll: nat, stored: bool)     // process the next event of the page; did the insert succeed?
    | Turn(poll: nat)                     // a full page: request and receive the next one
    | Finish(poll: nat)
    | Fail(poll: nat)                     // any await threw

  predicate Enabled(s: State, step: Step) {
    match step
    case Grow(_) => true
    case Begin => true
    case Handle(p, _) => p < |s.polls| && !s.polls[p].over && s.polls[p].next < s.polls[p].end
    case Turn(p) => p < |s.polls| && !s.polls[p].over && s.polls[p].next == s.polls[p].end && s.polls[p].full
    case Finish(p) => p < |s.polls| && !s.polls[p].over && s.polls[p].next == s.polls[p].end && !s.polls[p].full
    case Fail(p) => p < |s.polls| && !s.polls[p].over
  }

  predicate PollsFit(s: State, history: seq<Event>) {
    forall p :: 0 <= p < |s.polls| ==> s.polls[p].next <= s.polls[p].end <= |history|
  }

  function NewPage(history: seq<Event>, from: nat, start: int, latest: int, visible: int): Poll
    requires from <= |history|
  {
    var end := PageEnd(history, from, visible);
    Poll(start, from, end, end - from == EVENT_PAGE_LIMIT, Max(latest, visible), false)
  }

  function Next(s: State, step: Step, history: seq<Event>): State
    requires Enabled(s, step) && PollsFit(s, history)
  {
    match step
    case Grow(ledgers) => s.(visible := s.visible + ledgers)
    case Begin =>
      s.(polls := s.polls + [NewPage(history, Before(history, s.startLedger), s.startLedger, s.visible, s.visible)])
    case Handle(p, stored) =>
      var e := history[s.polls[p].next];
      var moved := s.(polls := s.polls[p := s.polls[p].(next := s.polls[p].next + 1)]);
      if !Wanted(e) then moved
      else if stored then
        moved.(handed := s.handed + {e.id}, accepted := s.accepted + {e.id}, rows := InsertRow(s.rows, e))
      else moved.(handed := s.handed + {e.id})
    case Turn(p) =>
      s.(polls := s.polls[p := NewPage(history, s.polls[p].end, s.polls[p].start, s.polls[p].latest, s.visible)])
    case Finish(p) =>
      s.(startLedger := Max(s.startLedger, s.polls[p].latest + 1), polls := s.polls[p := s.polls[p].(over := true)])
    case Fail(p) => s.(polls := s.polls[p := s.polls[p].(over := true)])
  }

  predicate ValidRun(s: State, steps: seq<Step>, history: seq<Event>)
    decreases |steps|
  {
    steps == [] ||
    (Enabled(s, steps[0]) && PollsFit(s, history) && ValidRun(Next(s, steps[0], history), steps[1..], history))
  }

  function Run(s: State, steps: seq<Step>, history: seq<Event>): State
    requires ValidRun(s, steps, history)
    decreases |steps|
  {
    if steps == [] then s else Run(Next(s, steps[0], history), steps[1..], history)
  }

  /** The listener starts at the latest ledger. */
  function Started(latestLedger: int): State { State(latestLedger, latestLedger, [], {}, {}, []) }

  /** Everything wanted in history[from..upto] was handed to the store. */
  ghost predicate HandedBetween(handed: set<string>, history: seq<Event>, from: nat, upto: nat) {
    forall i :: from <= i < upto && i < |history| && Wanted(history[i]) ==> history[i].id in handed
  }

  ghost predicate PollOk(s: State, poll: Poll, history: seq<Event>, first: int) {
    && first <= poll.start <= s.startLedger
    && Before(history, poll.start) <= poll.next <= poll.end <= |history|
    && poll.latest <= s.visible
    && HandedBetween(s.handed, history, Before(history, poll.start), poll.next)
    && (!poll.full ==> forall i :: 0 <= i < |history| && history[i].ledger <= poll.latest ==> i < poll.end)
  }

  /** Only wanted events of ledger `first` or later are handed over. */
  ghost predicate HandedOk(handed: set<string>, history: seq<Event>, first: int) {
    forall id :: id in handed ==>
      exists i :: 0 <= i < |history| && history[i].id == id && first <= history[i].ledger && Wanted(history[i])
  }

  ghost predicate ScanInv(s: State, history: seq<Event>, first: int) {
    && first <= s.startLedger
    && (forall p :: 0 <= p < |s.polls| && !s.polls[p].over ==> PollOk(s, s.polls[p], history, first))
    && PollsFit(s, history)
    && HandedBetween(s.handed, history, Before(history, first), Before(history, s.startLedger))
    && HandedOk(s.handed, history, first)
  }

  /** A row records an event of the history with its own kind and ledger. */
  ghost predicate RowOk(row: Row, history: seq<Event>) {
    exists i :: 0 <= i < |history| && row == Row(history[i].id, Classify(history[i].topics), history[i].ledger)
  }

  ghost predicate StoreInv(rows: seq<Row>, accepted: set<string>, history: seq<Event>) {
    && (forall i, j :: 0 <= i < j < |rows| ==> rows[i].id != rows[j].id)
    && (forall i :: 0 <= i < |rows| ==> RowOk(rows[i], history) && rows[i].id in accepted)
    && (forall id :: id in accepted ==> HasRow(rows, id))
  }

  ghost predicate Inv(s: State, history: seq<Event>, first: int) {
    ScanInv(s, history, first) && StoreInv(s.rows, s.accepted, history)
  }

  /** More handed over, more visible, a later start: what holds of a poll goes on holding. */
  lemma PollStaysOk(s: State, after: State, poll: Poll, history: seq<Event>, first: int)
    requires IsHistory(history) && PollOk(s, poll, history, first)
    requires s.startLedger <= after.startLedger && s.visible <= after.visible && s.handed <= after.handed
    ensures PollOk(after, poll, history, first)
  {
  }

  lemma HandlingKeepsPoll(s: State, p: nat, stored: bool, history: seq<Event>, first: int)
    requires IsHistory(history) && Enabled(s, Handle(p, stored)) && PollsFit(s, history)
    requires PollOk(s, s.polls[p], history, first)
    ensures PollOk(Next(s, Handle(p, stored), history), Next(s, Handle(p, stored), history).polls[p], history, first)
  {
    PollStaysOk(s, Next(s, Handle(p, stored), history), s.polls[p], history, first);
  }

  lemma HandleKeepsScan(s: State, p: nat, stored: bool, history: seq<Event>, first: int)
    requires IsHistory(history) && ScanInv(s, history, first) && Enabled(s, Handle(p, stored))
    ensures ScanInv(Next(s, Handle(p, stored), history), history, first)
  {
    var after, n := Next(s, Handle(p, stored), history), s.polls[p].next;
    assert PollOk(s, s.polls[p], history, first);
    HandlingKeepsPoll(s, p, stored, history, first);
    forall q | 0 <= q < |after.polls| && !after.polls[q].over
      ensures PollOk(after, after.polls[q], history, first)
    {
      if q != p {
        PollStaysOk(s, after, s.polls[q], history, first);
      }
    }
    HandledIsOk(s.handed, history, s.polls[p], n, first);
  }

  /** The event a poll handles is not before the first ledger. */
  lemma HandledIsOk(handed: set<string>, history: seq<Event>, poll: Poll, n: nat, first: int)
    requires IsHistory(history) && HandedOk(handed, history, first)
    requires first <= poll.start && Before(history, poll.start) <= n < |history|
    ensures first <= history[n].ledger
    ensures Wanted(history[n]) ==> HandedOk(handed + {history[n].id}, history, first)
  {
    BeforeIsMonotone(history, first, poll.start);
  }

  lemma InsertKeepsStore(rows: seq<Row>, accepted: set<string>, history: seq<Event>, n: nat)
    requires StoreInv(rows, accepted, history) && n < |history|
    ensures StoreInv(InsertRow(rows, history[n]), accepted + {history[n].id}, history)
  {
    var e, after := history[n], InsertRow(rows, history[n]);
    forall id | id in accepted + {e.id}
      ensures HasRow(after, id)
    {
      if HasRow(rows, id) {
        var i :| 0 <= i < |rows| && rows[i].id == id;
        assert after[i].id == id;
      } else {
        assert after[|rows|].id == id;
      }
    }
  }

  lemma PollsKeepScan(s: State, after: State, history: seq<Event>, first: int)
    requires IsHistory(history) && ScanInv(s, history, first)
    requires after == s.(polls := after.polls, visible := after.visible) && s.visible <= after.visible
    requires forall p :: 0 <= p < |after.polls| ==> after.polls[p].next <= after.polls[p].end <= |history|
    requires forall p :: 0 <= p < |after.polls| && !after.polls[p].over ==>
      (p < |s.polls| && after.polls[p] == s.polls[p]) || PollOk(after, after.polls[p], history, first)
    ensures ScanInv(after, history, first)
  {
    forall p | 0 <= p < |after.polls| && !after.polls[p].over
      ensures PollOk(after, after.polls[p], history, first)
    {
      if p < |s.polls| && after.polls[p] == s.polls[p] {
        assert PollOk(s, s.polls[p], history, first);
      }
    }
  }

  lemma FinishKeepsScan(s: State, p: nat, history: seq<Event>, first: int)
    requires IsHistory(history) && ScanInv(s, history, first) && Enabled(s, Finish(p))
    ensures ScanInv(Next(s, Finish(p), history), history, first)
  {
    var after := Next(s, Finish(p), history);
    assert PollOk(s, s.polls[p], history, first);
    forall q | 0 <= q < |after.polls| && !after.polls[q].over
      ensures PollOk(after, after.polls[q], history, first)
    {
      assert PollOk(s, s.polls[q], history, first);
    }
  }

  lemma StepKeepsInv(s: State, step: Step, history: seq<Event>, first: int)
    requires IsHistory(history) && Inv(s, history, first) && Enabled(s, step)
    ensures Inv(Next(s, step, history), history, first)
  {
    var after := Next(s, step, history);
    match step {
      case Grow(_) => PollsKeepScan(s, after, history, first);
      case Begin =>
        assert PollOk(after, after.polls[|s.polls|], history, first);
        PollsKeepScan(s, after, history, first);
      case Handle(p, stored) =>
        HandleKeepsScan(s, p, stored, history, first);
        InsertKeepsStore(s.rows, s.accepted, history, s.polls[p].next);
      case Turn(p) =>
        assert PollOk(s, s.polls[p], history, first);
        assert PollOk(after, after.polls[p], history, first);
        PollsKeepScan(s, after, history, first);
      case Finish(p) => FinishKeepsScan(s, p, history, first);
      case Fail(p) => PollsKeepScan(s, after, history, first);
    }
  }

  lemma {:induction false} RunKeepsInv(s: State, steps: seq<Step>, history: seq<Event>, first: int)
    requires IsHistory(history) && ValidRun(s, steps, history) && Inv(s, history, first)
    ensures Inv(Run(s, steps, history), history, first)
    decreases |steps|
  {
    if steps != [] {
      StepKeepsInv(s, steps[0], history, first);
      RunKeepsInv(Next(s, steps[0], history), steps[1..], history, first);
    }
  }

  lemma RowsOfEvent(rows: seq<Row>, accepted: set<string>, history: seq<Event>, i: nat, kind: Kind)
    requires IsHistory(history) && StoreInv(rows, accepted, history) && i < |history|
    ensures Row(history[i].id, kind, history[i].ledger) in rows
      <==> history[i].id in accepted && kind == Classify(history[i].topics)
  {
    if history[i].id in accepted {
      var r :| 0 <= r < |rows| && rows[r].id == history[i].id;
      assert RowOk(rows[r], history);
    }
  }

  /**
   * However polls succeed, fail and overlap, every event between the first ledger and `startLedger`: it was handed
   * to the store exactly if some topic holds "deposit" or "withdraw"; it has a row exactly if one of its inserts
   * succeeded, never two, and the row says deposit if some topic holds that word, else withdrawal.
   */
  lemma NoEventIsSkipped(latestLedger: int, steps: seq<Step>, history: seq<Event>, i: nat)
    requires IsHistory(history) && ValidRun(Started(latestLedger), steps, history) && i < |history|
    requires latestLedger <= history[i].ledger < Run(Started(latestLedger), steps, history).startLedger
    ensures var s, e := Run(Started(latestLedger), steps, history), history[i];
      && (e.id in s.handed <==> Names(e.topics, "deposit") || Names(e.topics, "withdraw"))
      && (Row(e.id, Deposit, e.ledger) in s.rows <==> e.id in s.accepted && Names(e.topics, "deposit"))
      && (Names(e.topics, "deposit") ==> Row(e.id, Withdraw, e.ledger) !in s.rows)
      && (!Names(e.topics, "deposit") ==>
            (Row(e.id, Withdraw, e.ledger) in s.rows <==> e.id in s.accepted && Names(e.topics, "withdraw")))
      && (forall j, k :: 0 <= j < |s.rows| && 0 <= k < |s.rows| && s.rows[j].id == e.id == s.rows[k].id ==> j == k)
  {
    var s, e := Run(Started(latestLedger), steps, history), history[i];
    RunKeepsInv(Started(latestLedger), steps, history, latestLedger);
    assert ScanInv(s, history, latestLedger);
    ClassifyIff(e, Deposit);
    ClassifyIff(e, Withdraw);
    RowsOfEvent(s.rows, s.accepted, history, i, Deposit);
    RowsOfEvent(s.rows, s.accepted, history, i, Withdraw);
  }

  /** At step k a poll handles the event of this id, which is a deposit or a withdrawal, and its insert succeeds. */
  ghost predicate StoresAt(s: State, steps: seq<Step>, history: seq<Event>, k: nat, id: string)
    requires ValidRun(s, steps, history) && k < |steps|
    decreases k
  {
    if k > 0 then StoresAt(Next(s, steps[0], history), steps[1..], history, k - 1, id)
    else
      steps[0].Handle? && steps[0].stored &&
      var e := history[s.polls[steps[0].poll].next];
      e.id == id && (Names(e.topics, "deposit") || Names(e.topics, "withdraw"))
  }

  ghost predicate StoresInRun(s: State, steps: seq<Step>, history: seq<Event>, id: string)
    requires ValidRun(s, steps, history)
  {
    exists k :: 0 <= k < |steps| && StoresAt(s, steps, history, k, id)
  }

  /** `accepted` is what the run stored. */
  lemma {:induction false} AcceptedIff(s: State, steps: seq<Step>, history: seq<Event>, id: string)
    requires ValidRun(s, steps, history)
    ensures id in Run(s, steps, history).accepted
      <==> id in s.accepted || StoresInRun(s, steps, history, id)
    decreases |steps|
  {
    if steps != [] {
      var next := Next(s, steps[0], history);
      AcceptedIff(next, steps[1..], history, id);
      if steps[0].Handle? {
        ClassifyIff(history[s.polls[steps[0].poll].next], Other);
      }
      assert id in next.accepted <==> id in s.accepted || StoresAt(s, steps, history, 0, id);
      StoresAtLater(s, steps, history, id);
    }
  }

  lemma StoresAtLater(s: State, steps: seq<Step>, history: seq<Event>, id: string)
    requires ValidRun(s, steps, history) && steps != []
    ensures StoresInRun(s, steps, history, id)
      <==> StoresAt(s, steps, history, 0, id) || StoresInRun(Next(s, steps[0], history), steps[1..], history, id)
  {
    var next := Next(s, steps[0], history);
    if StoresInRun(s, steps, history, id) {
      var k :| 0 <= k < |steps| && StoresAt(s, steps, history, k, id);
      assert k > 0 ==> StoresAt(next, steps[1..], history, k - 1, id);
    }
    if StoresInRun(next, steps[1..], history, id) {
      var k :| 0 <= k < |steps| - 1 && StoresAt(next, steps[1..], history, k, id);
      assert StoresAt(s, steps, history, k + 1, id);
    }
  }

  lemma {:induction false} PollKeepsLatest(s: State, steps: seq<Step>, history: seq<Event>, p: nat, seen: int)
    requires ValidRun(s, steps, history) && p < |s.polls| && seen <= s.polls[p].latest
    ensures p < |Run(s, steps, history).polls| && seen <= Run(s, steps, history).polls[p].latest
    decreases |steps|
  {
    if steps != [] {
      PollKeepsLatest(Next(s, steps[0], history), steps[1..], history, p, seen);
    }
  }

  /** A poll that finishes, whatever runs between, moves the start past every ledger that was visible when it began. */
  lemma FinishedPollAdvances(s: State, steps: seq<Step>, history: seq<Event>)
    requires PollsFit(s, history) && ValidRun(Next(s, Begin, history), steps, history)
    requires PollsFit(Run(Next(s, Begin, history), steps, history), history)
    requires Enabled(Run(Next(s, Begin, history), steps, history), Finish(|s.polls|))
    ensures s.visible
          < Next(Run(Next(s, Begin, history), steps, history), Finish(|s.polls|), history).startLedger
  {
    PollKeepsLatest(Next(s, Begin, history), steps, history, |s.polls|, s.visible);
  }

  /**
   * Nothing before the ledger the listener started at is ever handed over. The start ignores a restored
   * checkpoint, so the ledgers between that checkpoint and the latest one at startup stay unread.
   */
  lemma NothingBeforeTheStartIsHanded(latestLedger: int, steps: seq<Step>, history: seq<Event>, i: nat)
    requires IsHistory(history) && ValidRun(Started(latestLedger), steps, history)
    requires i < |history| && history[i].ledger < latestLedger
    ensures history[i].id !in Run(Started(latestLedger), steps, history).handed
  {
    RunKeepsInv(Started(latestLedger), steps, history, latestLedger);
  }

  /** The scan never loses ground. */
  lemma {:induction false} StartLedgerNeverDecreases(s: State, steps: seq<Step>, history: seq<Event>)
    requires ValidRun(s, steps, history)
    ensures s.startLedger <= Run(s, steps, history).startLedger
    decreases |steps|
  {
    if steps != [] {
      StartLedgerNeverDecreases(Next(s, steps[0], history), steps[1..], history);
    }
  }

  // ---------------------------------------------------------------- the cursor module

  /** `ledger` is absent when the RPC's value is not a safe integer. */
  function LatestEventLedger(ledgers: seq<Option<int>>, from: int): int {
    if ledgers == [] then from
    else
      LatestEventLedger(ledgers[1..], if ledgers[0].Some? then Max(from, ledgers[0].value) else from)
  }

  function NextLedgerAfterWindow(startLedger: int, ledgers: seq<Option<int>>, latestLedger: Option<int>): int {
    var observed :=
      if latestLedger.Some? && latestLedger.value >= startLedger then latestLedger.value
      else LatestEventLedger(ledgers, startLedger - 1);
    Max(startLedger, observed + 1)
  }

  function Ledgers(history: seq<Event>, from: nat, upto: nat): seq<Option<int>>
    requires from <= upto <= |history|
  {
    seq(upto - from, i requires 0 <= i < upto - from => Some(history[from + i].ledger))
  }

  /** The listener's own advance is the cursor module's, on the window that the poll scanned. */
  lemma AdvanceIsNextLedgerAfterWindow(history: seq<Event>, startLedger: int, latest: int)
    requires IsHistory(history)
    ensures var first := Before(history, startLedger);
      var end := Max(first, Before(history, latest + 1));
      Max(startLedger, latest + 1) == NextLedgerAfterWindow(startLedger, Ledgers(history, first, end), Some(latest))
  {
    var first := Before(history, startLedger);
    if latest < startLedger {
      BeforeIsMonotone(history, latest + 1, startLedger);
      assert Ledgers(history, first, first) == [];
    }
  }

  /**
   * Without a usable latest ledger the next window starts right after this one's last event, wherever in the window
   * that event stands, and with no such event it starts where this one did.
   */
  lemma WindowWithoutLatestCoversItsEvents(startLedger: int, ledgers: seq<Option<int>>)
    ensures var next := NextLedgerAfterWindow(startLedger, ledgers, None);
      && startLedger <= next
      && (forall i :: 0 <= i < |ledgers| && ledgers[i].Some? ==> ledgers[i].value < next)
      && (startLedger < next ==> Some(next - 1) in ledgers)
  {
    LatestIsGreatest(ledgers, startLedger - 1);
  }

  lemma {:induction false} LatestIsGreatest(ledgers: seq<Option<int>>, from: int)
    ensures var latest := LatestEventLedger(ledgers, from);
      && from <= latest
      && (forall i :: 0 <= i < |ledgers| && ledgers[i].Some? ==> ledgers[i].value <= latest)
      && (from < latest ==> Some(latest) in ledgers)
  {
    if ledgers != [] {
      LatestIsGreatest(ledgers[1..], if ledgers[0].Some? then Max(from, ledgers[0].value) else from);
    }
  }
}
