/** Reading the ledger (internal/wagering/reconcile.go): reconciliation and cursor pages. */
module LedgerReads {
  import opened Wrappers
  import opened Failures
  import opened Money
  import opened Domain
  import opened Tables
  import opened Engine
  import opened Invariant
  import opened Sums
  import opened Settling
  import opened Steps
  import opened History
  import Base64
  import Int64

  // ---------------------------------------------------------------- ordered queries

  /** `e` placed behind every entry that is not of a later version. */
  function InsertByVersion(sorted: seq<Entry>, e: Entry): seq<Entry> {
    if sorted == [] || sorted[|sorted| - 1].version <= e.version then sorted + [e]
    else InsertByVersion(sorted[..|sorted| - 1], e) + [sorted[|sorted| - 1]]
  }

  function OrderByVersion(entries: seq<Entry>): seq<Entry> {
    if entries == [] then []
    else InsertByVersion(OrderByVersion(entries[..|entries| - 1]), entries[|entries| - 1])
  }

  /** AllOrdered: the entries of one wallet in version order. */
  function AllOrdered(ledger: seq<Entry>, w: string): seq<Entry> {
    OrderByVersion(WalletLedger(ledger, w))
  }

  predicate Ascending(entries: seq<Entry>) {
    forall j, k :: 0 <= j < k < |entries| ==> entries[j].version < entries[k].version
  }

  lemma InsertLast(sorted: seq<Entry>, e: Entry)
    requires sorted != [] ==> sorted[|sorted| - 1].version <= e.version
    ensures InsertByVersion(sorted, e) == sorted + [e]
  {
  }

  lemma {:induction false} OrderKeepsAscending(entries: seq<Entry>)
    requires Ascending(entries)
    ensures OrderByVersion(entries) == entries
  {
    if entries != [] {
      var n := |entries| - 1;
      var front, last := entries[..n], entries[n];
      OrderKeepsAscending(front);
      InsertLast(front, last);
      assert front + [last] == entries;
    }
  }

  /** Versions never fall. */
  predicate InOrder(entries: seq<Entry>) {
    forall j, k :: 0 <= j < k < |entries| ==> entries[j].version <= entries[k].version
  }

  lemma {:induction false} InsertKeepsAll(sorted: seq<Entry>, e: Entry)
    ensures multiset(InsertByVersion(sorted, e)) == multiset(sorted) + multiset{e}
    decreases |sorted|
  {
    if sorted != [] && sorted[|sorted| - 1].version > e.version {
      var front, last := sorted[..|sorted| - 1], sorted[|sorted| - 1];
      InsertKeepsAll(front, e);
      assert sorted == front + [last];
    }
  }

  lemma AppendInOrder(entries: seq<Entry>, last: Entry)
    requires InOrder(entries) && forall x :: x in entries ==> x.version <= last.version
    ensures InOrder(entries + [last])
  {
    assert forall k :: 0 <= k < |entries| ==> entries[k] in entries;
  }

  lemma {:induction false} InsertSorts(sorted: seq<Entry>, e: Entry)
    requires InOrder(sorted)
    ensures InOrder(InsertByVersion(sorted, e))
    decreases |sorted|
  {
    if sorted == [] || sorted[|sorted| - 1].version <= e.version {
      AppendInOrder(sorted, e);
    } else {
      var front, last := sorted[..|sorted| - 1], sorted[|sorted| - 1];
      InsertSorts(front, e);
      InsertKeepsAll(front, e);
      var r := InsertByVersion(front, e);
      forall x | x in r
        ensures x.version <= last.version
      {
        assert x in multiset(r);
        assert x in front || x == e;
      }
      AppendInOrder(r, last);
    }
  }

  /** The ordered query yields the same entries, in order of their versions. */
  lemma {:induction false} OrderSorts(entries: seq<Entry>)
    ensures InOrder(OrderByVersion(entries)) && multiset(OrderByVersion(entries)) == multiset(entries)
  {
    if entries != [] {
      var n := |entries| - 1;
      OrderSorts(entries[..n]);
      InsertSorts(OrderByVersion(entries[..n]), entries[n]);
      InsertKeepsAll(OrderByVersion(entries[..n]), entries[n]);
      assert entries == entries[..n] + [entries[n]];
    }
  }

  // ---------------------------------------------------------------- reconciliation

  datatype Reconciliation = Reconciliation(
    stored: Money, calculated: Money, difference: Money, consistent: bool, checked: nat)

  /** One entry applied to the running balance. */
  function Replay(sum: Money, e: Entry): Result<Money, Code>
    requires Int64.Fits(sum.minor) && Int64.Fits(e.amount)
  {
    if !ValidCurrency(e.currency) then Err(InvalidMoney)
    else if e.dir == Credit then Add(sum, Money(e.amount, e.currency)) else Sub(sum, Money(e.amount, e.currency))
  }

  predicate Stored(entries: seq<Entry>) {
    forall k :: 0 <= k < |entries| ==> Int64.Fits(entries[k].amount)
  }

  /** The balance replayed from zero, or the first error on the way. */
  function Replayed(entries: seq<Entry>, currency: string): (r: Result<Money, Code>)
    requires Stored(entries)
    ensures r.Ok? ==> Int64.Fits(r.value.minor) && r.value.currency == currency && r.value.minor == LedgerSum(entries)
  {
    if entries == [] then Ok(Money(0, currency))
    else
      var sum := Replayed(entries[..|entries| - 1], currency);
      if sum.Err? then sum else Replay(sum.value, entries[|entries| - 1])
  }

  /** The balance after the first `k` entries. */
  function Running(entries: seq<Entry>, k: nat): int
    requires k <= |entries|
  {
    LedgerSum(entries[..k])
  }

  predicate OneCurrency(entries: seq<Entry>, currency: string) {
    forall k :: 0 <= k < |entries| ==> entries[k].currency == currency
  }

  predicate StaysInRange(entries: seq<Entry>) {
    forall k :: 0 <= k <= |entries| ==> Int64.Fits(Running(entries, k))
  }

  lemma RunningFront(entries: seq<Entry>, k: nat)
    requires k < |entries|
    ensures Running(entries[..|entries| - 1], k) == Running(entries, k)
  {
    hide LedgerSum;
    assert entries[..|entries| - 1][..k] == entries[..k];
  }

  lemma RunningAll(entries: seq<Entry>)
    ensures Running(entries, |entries|) == LedgerSum(entries)
  {
    hide LedgerSum;
    assert entries[..|entries|] == entries;
  }

  lemma RangeStep(entries: seq<Entry>)
    requires entries != []
    ensures StaysInRange(entries) <==> StaysInRange(entries[..|entries| - 1]) && Int64.Fits(LedgerSum(entries))
  {
    hide LedgerSum, Int64.Fits, Running;
    var front := entries[..|entries| - 1];
    RunningAll(entries);
    forall k: nat | k <= |front|
      ensures Running(front, k) == Running(entries, k)
    {
      RunningFront(entries, k);
    }
  }

  lemma CurrencyStep(entries: seq<Entry>, currency: string)
    requires entries != []
    ensures OneCurrency(entries, currency) <==>
              OneCurrency(entries[..|entries| - 1], currency) && entries[|entries| - 1].currency == currency
  {
    var front := entries[..|entries| - 1];
    assert entries == front + [entries[|entries| - 1]];
  }

  /** The replay succeeds if and only if every entry is in the wallet's currency and every running balance is
      an int64. */
  lemma {:induction false} ReplaySucceedsIff(entries: seq<Entry>, currency: string)
    requires Stored(entries) && ValidCurrency(currency)
    ensures Replayed(entries, currency).Ok? <==> OneCurrency(entries, currency) && StaysInRange(entries)
  {
    hide Add, Sub, ValidCurrency, OneCurrency, StaysInRange;
    if entries == [] {
      NothingReplays(currency);
    } else {
      ReplaySucceedsIff(entries[..|entries| - 1], currency);
      RangeStep(entries);
      CurrencyStep(entries, currency);
    }
  }

  lemma NothingReplays(currency: string)
    ensures OneCurrency([], currency) && StaysInRange([])
  {
    assert Running([], 0) == 0;
  }

  /** An error of the replay is not undone by later entries. */
  lemma {:induction false} ReplayStaysFailed(entries: seq<Entry>, currency: string, k: nat)
    requires Stored(entries) && k <= |entries| && Replayed(entries[..k], currency).Err?
    ensures Replayed(entries, currency) == Replayed(entries[..k], currency)
    decreases |entries|
  {
    if k < |entries| {
      assert entries[..|entries| - 1][..k] == entries[..k];
      ReplayStaysFailed(entries[..|entries| - 1], currency, k);
    } else {
      assert entries[..k] == entries;
    }
  }

  function Reconciled(db: Db, w: string): Result<Reconciliation, Code>
    requires Stored(AllOrdered(db.ledger, w)) && (w in db.wallets ==> Int64.Fits(db.wallets[w].balance))
  {
    if w !in db.wallets then Err(WalletNotFound)
    else
      var row, entries := db.wallets[w], AllOrdered(db.ledger, w);
      if !ValidCurrency(row.currency) then Err(InvalidMoney)
      else
        var stored, sum := Money(row.balance, row.currency), Replayed(entries, row.currency);
        if sum.Err? then Err(sum.error)
        else
          var diff := Sub(stored, sum.value);
          if diff.Err? then Err(diff.error)
          else Ok(Reconciliation(stored, sum.value, diff.value, stored.minor == sum.value.minor, |entries|))
  }

  method Reconcile(db: Db, w: string) returns (r: Result<Reconciliation, Code>)
    requires Stored(AllOrdered(db.ledger, w)) && (w in db.wallets ==> Int64.Fits(db.wallets[w].balance))
    ensures r == Reconciled(db, w)
    ensures w !in db.wallets ==> r == Err(WalletNotFound)
    ensures r.Ok? ==> w in db.wallets && r.value.stored == Money(db.wallets[w].balance, db.wallets[w].currency)
    ensures r.Ok? ==>
              && r.value.checked == |AllOrdered(db.ledger, w)|
              && r.value.difference.minor == db.wallets[w].balance - LedgerSum(AllOrdered(db.ledger, w))
              && (r.value.consistent <==> db.wallets[w].balance == LedgerSum(AllOrdered(db.ledger, w)))
  {
    hide Add, Sub, AllOrdered, LedgerSum, ValidCurrency;
    if w !in db.wallets {
      return Err(WalletNotFound);
    }
    var row, entries := db.wallets[w], AllOrdered(db.ledger, w);
    if !ValidCurrency(row.currency) {
      return Err(InvalidMoney);
    }
    var stored, calculated := Money(row.balance, row.currency), Money(0, row.currency);
    for k := 0 to |entries|
      invariant Replayed(entries[..k], row.currency) == Ok(calculated)
    {
      assert entries[..k + 1][..k] == entries[..k];
      var step := Replay(calculated, entries[k]);
      if step.Err? {
        ReplayStaysFailed(entries, row.currency, k + 1);
        return Err(step.error);
      }
      calculated := step.value;
    }
    assert entries[..|entries|] == entries;
    var diff := Sub(stored, calculated);
    if diff.Err? {
      return Err(diff.error);
    }
    r := Ok(Reconciliation(stored, calculated, diff.value, stored.minor == calculated.minor, |entries|));
  }

  lemma ChainAscends(chain: seq<Entry>, row: WalletRow)
    requires ChainOk(chain, row)
    ensures Ascending(chain) && Stored(chain)
    ensures forall k :: 0 <= k < |chain| ==> chain[k].version >= 1
  {
    forall j, k | 0 <= j < k < |chain|
      ensures chain[j].version < chain[k].version
    {
      assert chain[j].version == row.version - (|chain| - 1 - j);
    }
    forall k | 0 <= k < |chain|
      ensures Int64.Fits(chain[k].amount) && chain[k].version >= 1
    {
      assert chain[k].after == After(chain[k].before, chain[k].dir, chain[k].amount);
    }
  }

  /** A chain replays to its last balance; the running balance never leaves the int64 range. */
  lemma {:induction false} ChainReplays(chain: seq<Entry>, row: WalletRow)
    requires ChainOk(chain, row) && ValidCurrency(row.currency)
    ensures Stored(chain) && Replayed(chain, row.currency) == Ok(Money(row.balance, row.currency))
    decreases |chain|
  {
    hide Add, Sub, LedgerSum, ValidCurrency;
    ChainAscends(chain, row);
    if chain != [] {
      var front, last := chain[..|chain| - 1], chain[|chain| - 1];
      ChainReplays(front, row.(balance := last.before, version := row.version - 1));
    }
  }

  lemma ReachableChain(steps: seq<Step>, w: string)
    requires w in Run(steps).wallets
    ensures var db := Run(steps);
            && ChainOk(WalletLedger(db.ledger, w), db.wallets[w])
            && ValidCurrency(db.wallets[w].currency) && 0 <= db.wallets[w].balance <= Int64.MAX
  {
    hide WalletLedger, ChainOk;
    RunHasInv(steps);
    assert ChainsOk(Run(steps).wallets, Run(steps).ledger) && WalletsOk(Run(steps).wallets);
  }

  /** In every reachable database reconciliation succeeds for every wallet, finds no difference and
      checks every entry. */
  lemma ReconciliationNeverDiverges(steps: seq<Step>, w: string)
    requires w in Run(steps).wallets
    ensures var db := Run(steps);
            var money := Money(db.wallets[w].balance, db.wallets[w].currency);
            && Int64.Fits(db.wallets[w].balance) && Stored(AllOrdered(db.ledger, w))
            && Reconciled(db, w) ==
                 Ok(Reconciliation(money, money, Money(0, money.currency), true, |WalletLedger(db.ledger, w)|))
  {
    hide WalletLedger, ChainOk, Inv;
    ReachableChain(steps, w);
    var db := Run(steps);
    var chain, row := WalletLedger(db.ledger, w), db.wallets[w];
    ChainAscends(chain, row);
    OrderKeepsAscending(chain);
    ChainReplays(chain, row);
  }

  // ---------------------------------------------------------------- cursors

  const DEFAULT_LIMIT := 50
  const MAX_LIMIT := 200

  /** EncodeCursor: the version in decimal, in base64. */
  function EncodeCursor(version: nat): string {
    Base64.Encode(Base64.Bytes(Decimal(version)))
  }

  function Unsigned(s: string): string {
    if s != [] && (s[0] == '+' || s[0] == '-') then s[1..] else s
  }

  /** DecodeCursor: empty is the beginning, otherwise a non-negative int64 in decimal. */
  function DecodeCursor(cursor: string): (r: Result<int, Code>)
    ensures r.Ok? ==> 0 <= r.value <= Int64.MAX
    ensures r.Err? ==> r.error == InvalidRequest
    ensures cursor == "" ==> r == Ok(0)
  {
    if cursor == "" then Ok(0)
    else
      var raw := Base64.Decode(cursor);
      if raw.None? then Err(InvalidRequest) else ParseVersion(Base64.Text(raw.value))
  }

  /** strconv.ParseInt in base 10 of a non-negative int64. */
  function ParseVersion(text: string): (r: Result<int, Code>)
    ensures r.Ok? ==> 0 <= r.value <= Int64.MAX
    ensures r.Err? ==> r.error == InvalidRequest
  {
    var digits := Unsigned(text);
    if digits == "" || !Digits(digits) then Err(InvalidRequest)
    else
      var v: int := if text[0] == '-' then 0 - DigitsValue(digits) else DigitsValue(digits);
      if !Int64.Fits(v) || v < 0 then Err(InvalidRequest) else Ok(v)
  }

  /** `text` is an optional sign and digits with the value `v`. */
  ghost predicate Spells(text: string, v: int) {
    exists sign: string, digits: string ::
      && (sign == "" || sign == "+" || sign == "-") && text == sign + digits
      && digits != "" && Digits(digits)
      && v == if sign == "-" then 0 - DigitsValue(digits) else DigitsValue(digits)
  }

  lemma ParsedIfSpelled(text: string, sign: string, digits: string)
    requires (sign == "" || sign == "+" || sign == "-") && text == sign + digits && digits != "" && Digits(digits)
    ensures var v: int := if sign == "-" then 0 - DigitsValue(digits) else DigitsValue(digits);
            ParseVersion(text) == if 0 <= v <= Int64.MAX then Ok(v) else Err(InvalidRequest)
  {
    assert text[|sign|..] == digits;
    assert IsDigit(digits[0]);
    assert text[0] == (if sign == "" then digits[0] else sign[0]);
    assert Unsigned(text) == digits;
  }

  /** A non-empty cursor is accepted, as `v`, if and only if it is base64 of a decimal spelling of `v` and `v` is
      a non-negative int64. */
  lemma CursorIsAcceptedIff(cursor: string, v: int)
    requires cursor != ""
    ensures DecodeCursor(cursor) == Ok(v) <==>
              var raw := Base64.Decode(cursor);
              raw.Some? && Spells(Base64.Text(raw.value), v) && 0 <= v <= Int64.MAX
  {
    hide Base64.Decode, DigitsValue;
    var raw := Base64.Decode(cursor);
    if raw.Some? {
      var text := Base64.Text(raw.value);
      if Spells(text, v) {
        var sign: string, digits: string :|
          && (sign == "" || sign == "+" || sign == "-") && text == sign + digits
          && digits != "" && Digits(digits)
          && v == if sign == "-" then 0 - DigitsValue(digits) else DigitsValue(digits);
        ParsedIfSpelled(text, sign, digits);
      }
      if ParseVersion(text).Ok? {
        var digits := Unsigned(text);
        var sign := text[..|text| - |digits|];
        assert text == sign + digits;
        assert sign == "" || sign == "+" || sign == "-";
      }
    }
  }

  lemma CursorRoundTrip(version: nat)
    requires version <= Int64.MAX
    ensures EncodeCursor(version) != "" && DecodeCursor(EncodeCursor(version)) == Ok(version)
  {
    DecimalValue(version);
    assert IsDigit(Decimal(version)[0]);
    Base64.RoundTrip(Base64.Bytes(Decimal(version)));
    Base64.TextOfBytes(Decimal(version));
  }

  // ---------------------------------------------------------------- pages

  datatype LedgerPage = LedgerPage(entries: seq<Entry>, next: string)

  /** The entries after a version, in order. */
  function Beyond(entries: seq<Entry>, after: int): seq<Entry> {
    if entries == [] then []
    else
      var front, last := Beyond(entries[..|entries| - 1], after), entries[|entries| - 1];
      if last.version > after then front + [last] else front
  }

  /** The query behind a page: `limit` entries after a version. */
  function PageQuery(ledger: seq<Entry>, w: string, after: int, limit: nat): seq<Entry> {
    var rows := Beyond(AllOrdered(ledger, w), after);
    if |rows| > limit then rows[..limit] else rows
  }

  function Clamped(limit: int): (r: nat)
    ensures limit <= 0 ==> r == 50
    ensures 1 <= limit <= 200 ==> r == limit
    ensures limit > 200 ==> r == 200
  {
    if limit <= 0 then DEFAULT_LIMIT else if limit > MAX_LIMIT then MAX_LIMIT else limit
  }

  /** What a page is: as many of the remaining entries as the limit allows, and a cursor to its last
      entry exactly when more remain. */
  ghost predicate IsPage(remaining: seq<Entry>, limit: nat, page: LedgerPage) {
    if |remaining| <= limit then page == LedgerPage(remaining, "")
    else
      && page.entries == remaining[..limit]
      && limit > 0 && remaining[limit - 1].version >= 0
      && page.next == EncodeCursor(remaining[limit - 1].version)
  }

  method PageLedger(ledger: seq<Entry>, w: string, cursor: string, limit: int) returns (r: Result<LedgerPage, Code>)
    ensures r.Ok? <==> DecodeCursor(cursor).Ok?
    ensures r.Ok? ==> IsPage(Beyond(AllOrdered(ledger, w), DecodeCursor(cursor).value), Clamped(limit), r.value)
  {
    hide AllOrdered, Beyond, EncodeCursor, DecodeCursor;
    var after := DecodeCursor(cursor);
    if after.Err? {
      return Err(after.error);
    }
    var bound := limit;
    if bound <= 0 {
      bound := DEFAULT_LIMIT;
    }
    if bound > MAX_LIMIT {
      bound := MAX_LIMIT;
    }
    var rows := PageQuery(ledger, w, after.value, bound + 1);
    var page := LedgerPage([], "");
    if |rows| > bound {
      rows := rows[..bound];
      BeyondIsLater(AllOrdered(ledger, w), after.value);
      page := page.(next := EncodeCursor(rows[|rows| - 1].version));
    }
    page := page.(entries := rows);
    r := Ok(page);
  }

  lemma {:induction false} BeyondIsLater(entries: seq<Entry>, after: int)
    ensures forall k :: 0 <= k < |Beyond(entries, after)| ==> Beyond(entries, after)[k].version > after
  {
    if entries != [] {
      BeyondIsLater(entries[..|entries| - 1], after);
    }
  }

  /** In an ascending ledger the entries after the `c`-th are what remains. */
  lemma {:induction false} BeyondIsRest(chain: seq<Entry>, c: nat, after: int)
    requires Ascending(chain) && c <= |chain|
    requires forall k :: 0 <= k < c ==> chain[k].version <= after
    requires forall k :: c <= k < |chain| ==> chain[k].version > after
    ensures Beyond(chain, after) == chain[c..]
    decreases |chain|
  {
    if |chain| > c {
      BeyondIsRest(chain[..|chain| - 1], c, after);
      assert chain[c..] == chain[..|chain| - 1][c..] + [chain[|chain| - 1]];
    } else if chain != [] {
      BeyondIsRest(chain[..|chain| - 1], c - 1, after);
    }
  }

  /** One read of a client: the wallet's entries at that moment, and the page it got. */
  datatype Visit = Visit(chain: seq<Entry>, limit: int, page: LedgerPage)

  function Collected(visits: seq<Visit>): seq<Entry> {
    if visits == [] then [] else Collected(visits[..|visits| - 1]) + visits[|visits| - 1].page.entries
  }

  /** Versions are positive, fit the column and ascend. */
  ghost predicate Numbered(chain: seq<Entry>) {
    Ascending(chain) && forall j :: 0 <= j < |chain| ==> 1 <= chain[j].version <= Int64.MAX
  }

  /** The client starts at the empty cursor and follows the cursor of each page while there is one;
      entries may be appended between its reads. */
  ghost predicate Follows(visits: seq<Visit>)
    decreases |visits|
  {
    visits == [] ||
    var n := |visits| - 1;
    var last, front := visits[n], visits[..n];
    && Follows(front)
    && (n > 0 ==> front[n - 1].chain <= last.chain && front[n - 1].page.next != "")
    && Numbered(last.chain)
    && var cursor := DecodeCursor(if n == 0 then "" else front[n - 1].page.next);
       cursor.Ok? && IsPage(Beyond(last.chain, cursor.value), Clamped(last.limit), last.page)
  }

  /** What the client holds: a prefix of the ledger, all of it when the page has no cursor, and
      otherwise up to the entry the cursor names. */
  ghost predicate Holds(got: seq<Entry>, chain: seq<Entry>, next: string) {
    && got <= chain
    && if next == "" then got == chain
       else got != [] && got[|got| - 1].version >= 0 && next == EncodeCursor(got[|got| - 1].version)
  }

  lemma RestPage(chain: seq<Entry>, c: nat, limit: nat, page: LedgerPage)
    requires c <= |chain| && limit > 0 && IsPage(chain[c..], limit, page)
    ensures Holds(chain[..c] + page.entries, chain, page.next)
  {
    hide EncodeCursor;
    if |chain| - c <= limit {
      assert chain[..c] + chain[c..] == chain;
    } else {
      assert chain[..c] + chain[c..][..limit] == chain[..c + limit];
      assert chain[c..][limit - 1] == chain[c + limit - 1];
      EncodedIsNotEmpty(chain[c + limit - 1].version);
    }
  }

  lemma EncodedIsNotEmpty(version: nat)
    ensures EncodeCursor(version) != ""
  {
    Base64.RoundTrip(Base64.Bytes(Decimal(version)));
  }

  lemma PageExtends(chain: seq<Entry>, c: nat, cursor: int, limit: nat, page: LedgerPage)
    requires Numbered(chain) && c <= |chain| && limit > 0
    requires cursor == if c == 0 then 0 else chain[c - 1].version
    requires IsPage(Beyond(chain, cursor), limit, page)
    ensures Holds(chain[..c] + page.entries, chain, page.next)
  {
    hide IsPage, Holds, Beyond;
    BeyondIsRest(chain, c, cursor);
    RestPage(chain, c, limit, page);
  }

  /** After any number of reads the client holds a prefix of the ledger it read last, and the whole of
      it once a page comes without a cursor: no gap, no duplicate, in order. */
  lemma {:induction false} PagesAreTheLedger(visits: seq<Visit>)
    requires Follows(visits) && visits != []
    ensures Holds(Collected(visits), visits[|visits| - 1].chain, visits[|visits| - 1].page.next)
    decreases |visits|
  {
    hide EncodeCursor, DecodeCursor, Beyond, IsPage;
    EmptyCursor();
    var n := |visits| - 1;
    var last, front := visits[n], visits[..n];
    var got := Collected(front);
    if n > 0 {
      PagesAreTheLedger(front);
      assert got <= front[n - 1].chain <= last.chain;
      CursorRoundTrip(got[|got| - 1].version);
    }
    assert last.chain[..|got|] == got;
    PageExtends(last.chain, |got|, if n == 0 then 0 else got[|got| - 1].version, Clamped(last.limit), last.page);
  }

  lemma EmptyCursor()
    ensures DecodeCursor("") == Ok(0)
  {
  }

  // ---------------------------------------------------------------- pages of reachable databases

  lemma {:induction false} WalletLedgerGrows(ledger: seq<Entry>, ledger': seq<Entry>, w: string)
    requires ledger <= ledger'
    ensures WalletLedger(ledger, w) <= WalletLedger(ledger', w)
    decreases |ledger'|
  {
    if |ledger| < |ledger'| {
      WalletLedgerGrows(ledger, ledger'[..|ledger'| - 1], w);
    } else {
      assert ledger == ledger';
    }
  }

  /** Two reads of a wallet along a run: the later ledger continues the earlier, both are numbered, and
      the ordered query yields them as they are. */
  lemma ReadsAlongARun(steps: seq<Step>, n: nat, w: string)
    requires n <= |steps| && w in Run(steps[..n]).wallets && w in Run(steps).wallets
    requires Run(steps).wallets[w].version <= Int64.MAX
    ensures var early, late := WalletLedger(Run(steps[..n]).ledger, w), WalletLedger(Run(steps).ledger, w);
            early <= late && Numbered(late) && AllOrdered(Run(steps).ledger, w) == late
  {
    hide WalletLedger, Inv;
    RunEvolves(steps, n);
    WalletLedgerGrows(Run(steps[..n]).ledger, Run(steps).ledger, w);
    ReachableChain(steps, w);
    var late, row := WalletLedger(Run(steps).ledger, w), Run(steps).wallets[w];
    ChainAscends(late, row);
    assert forall k :: 0 <= k < |late| ==> late[k].version == row.version - (|late| - 1 - k);
    OrderKeepsAscending(late);
  }

  /** A client pages through wallet `w` while a run goes on: read `k` happens after `times[k]` of its
      transactions, against the ordered query on the database of that moment. */
  ghost predicate ReadsDuring(steps: seq<Step>, w: string, visits: seq<Visit>, times: seq<nat>)
    decreases |visits|
  {
    |times| == |visits| &&
    (visits == [] ||
     var n := |visits| - 1;
     var last, front, at := visits[n], visits[..n], times[n];
     && ReadsDuring(steps, w, front, times[..n])
     && (n > 0 ==> times[n - 1] <= at && front[n - 1].page.next != "")
     && at <= |steps| && w in Run(steps[..at]).wallets && Run(steps[..at]).wallets[w].version <= Int64.MAX
     && last.chain == AllOrdered(Run(steps[..at]).ledger, w)
     && var cursor := DecodeCursor(if n == 0 then "" else front[n - 1].page.next);
        cursor.Ok? && IsPage(Beyond(last.chain, cursor.value), Clamped(last.limit), last.page))
  }

  lemma {:induction false} ReadsFollow(steps: seq<Step>, w: string, visits: seq<Visit>, times: seq<nat>)
    requires ReadsDuring(steps, w, visits, times)
    ensures Follows(visits)
    decreases |visits|
  {
    hide IsPage, AllOrdered, Beyond, DecodeCursor, Numbered, Run;
    if visits != [] {
      var n := |visits| - 1;
      ReadsFollow(steps, w, visits[..n], times[..n]);
      var at := times[n];
      var now := steps[..at];
      assert now[..|now|] == now;
      ReadsAlongARun(now, |now|, w);
      if n > 0 {
        var before := times[n - 1];
        assert now[..before] == steps[..before];
        assert visits[..n][n - 1] == visits[n - 1] && times[..n][n - 1] == before;
        assert before <= |steps| && w in Run(steps[..before]).wallets;
        assert Run(steps[..before]).wallets[w].version <= Int64.MAX;
        assert visits[n - 1].chain == AllOrdered(Run(steps[..before]).ledger, w);
        ReadsAlongARun(now, before, w);
        var earlier := steps[..before];
        assert earlier[..|earlier|] == earlier;
        ReadsAlongARun(earlier, |earlier|, w);
      }
    }
  }

  /** Whatever is committed between the reads, the client ends with exactly the wallet's entries as of
      its last read. */
  lemma PagesDuringARun(steps: seq<Step>, w: string, visits: seq<Visit>, times: seq<nat>)
    requires visits != [] && ReadsDuring(steps, w, visits, times)
    requires visits[|visits| - 1].page.next == ""
    ensures times[|visits| - 1] <= |steps|
    ensures Collected(visits) == WalletLedger(Run(steps[..times[|visits| - 1]]).ledger, w)
  {
    hide IsPage, AllOrdered, Beyond, DecodeCursor, Run, Follows;
    ReadsFollow(steps, w, visits, times);
    PagesAreTheLedger(visits);
    var now := steps[..times[|visits| - 1]];
    assert now[..|now|] == now;
    ReadsAlongARun(now, |now|, w);
  }
}
