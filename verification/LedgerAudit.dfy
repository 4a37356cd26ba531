/** What an auditor reads off the books after any run from a fresh store. */
module LedgerAudit {
  import opened Sums
  import opened Tiers
  import opened Charging
  import opened Intake
  import opened Quotes
  import opened Ledger
  import opened LedgerBooks
  import opened LedgerRuns

  // ----- the books after a run

  /** Prepaid balances plus open holds are credits less debits; revenue is the net of its lines and
      the sum of settled charges; a token has spent what its reservations were charged. */
  lemma {:induction false} AccountsReconcile(s: Store, events: seq<Event>)
    requires Fresh(s)
    ensures var t := Run(s, events);
      && (forall a: Account :: a.Prepaid? ==> Balance(t, a) + Total(t.rows, OpenIn(a)) == Net(t.lines, a))
      && (forall c: string :: Balance(t, Revenue(c)) == Net(t.lines, Revenue(c)) == Total(t.rows, SettledIn(c)))
      && (forall k :: k in t.tokens ==> t.tokens[k].spent == Total(t.rows, SettledOf(k)))
  {
    FreshIsSound(s);
    BooksBalance(s, events);
    var t := Run(s, events);
    hide Run, Fresh, Total, Net;
    assert Rows(t) && Books(t);
    forall c: string
      ensures Balance(t, Revenue(c)) == Net(t.lines, Revenue(c)) == Total(t.rows, SettledIn(c))
    {
      OpenElsewhere(t.rows, Revenue(c));
      assert Balance(t, Revenue(c)) + Total(t.rows, OpenIn(Revenue(c))) == Booked(t.lines, Revenue(c));
    }
  }

  /** Reservation and request status agree and every hold is accounted for. */
  lemma {:induction false} RowsReconcile(s: Store, events: seq<Event>, id: string)
    requires Fresh(s) && id in Run(s, events).rows
    ensures var r := Run(s, events).rows[id];
      && (r.status == Held <==> r.requestStatus == Started)
      && (r.status == Pending <==> r.requestStatus == AwaitingSettlement)
      && (r.status == Settled <==> r.requestStatus == Finished)
      && (r.status == Released || r.status == Expired <==> r.requestStatus == Failed)
      && (Closed(r) ==> r.reserved + Positive(r.settled - r.reserved) == r.settled + r.released)
  {
    hide Run, Fresh, Inv;
    FreshIsSound(s);
    BooksBalance(s, events);
    RowIsSound(Run(s, events), id);
  }

  /** Every transaction has two lines that cancel, and no line belongs to none. */
  lemma {:induction false} JournalReconciles(s: Store, events: seq<Event>, i: nat)
    requires Fresh(s) && i < |Run(s, events).lines|
    ensures var t := Run(s, events);
      var ls := LinesOf(t.lines, t.lines[i].key);
      && t.lines[i].key in t.transactions && t.lines[i] in ls
      && |ls| == 2 && ls[0].amount == ls[1].amount > 0.0 && Signed(ls[0]) + Signed(ls[1]) == 0.0
  {
    hide Run, Fresh, LinesOf, Books, Income, Rows;
    FreshIsSound(s);
    BooksBalance(s, events);
    var t := Run(s, events);
    assert Journal(t);
    LineIsListed(t.lines, i);
  }

  lemma {:induction false} LineIsListed(lines: seq<Line>, i: nat)
    requires i < |lines|
    ensures lines[i] in LinesOf(lines, lines[i].key)
    decreases |lines|
  {
    if i < |lines| - 1 { LineIsListed(lines[..|lines| - 1], i); }
  }

  /** Credits and debits of the whole ledger cancel. */
  function NetOfAll(lines: seq<Line>): real {
    if lines == [] then 0.0 else NetOfAll(lines[..|lines| - 1]) + Signed(lines[|lines| - 1])
  }

  lemma PairCancels(lines: seq<Line>, x: Line, y: Line)
    requires x.amount == y.amount && y.direction == Opposite(x.direction)
    ensures NetOfAll(lines + [x, y]) == NetOfAll(lines)
  {
    assert (lines + [x, y])[..|lines| + 1] == lines + [x];
    assert (lines + [x])[..|lines|] == lines;
  }

  lemma StepCancels(s: Store, e: Event)
    ensures NetOfAll(Apply(s, e).store.lines) == NetOfAll(s.lines)
  {
    hide NetOfAll, Quote, QuoteAgain, OverLimit, SettleAmount, SettlementMetrics, DecimalAccepted, Balance, ChargeKey, Taken, Max;
    var t := Apply(s, e).store;
    if t.lines != s.lines {
      var n := |s.lines|;
      assert t.lines == s.lines + [t.lines[n], t.lines[n + 1]];
      PairCancels(s.lines, t.lines[n], t.lines[n + 1]);
    }
  }

  lemma {:induction false} LedgerCancels(s: Store, events: seq<Event>)
    ensures NetOfAll(Run(s, events).lines) == NetOfAll(s.lines)
    decreases |events|
  {
    hide NetOfAll, Apply;
    if events != [] {
      StepCancels(s, events[0]);
      LedgerCancels(Apply(s, events[0]).store, events[1..]);
    }
  }

  // ----- the top-up account

  /** Amounts booked on the credit side of an account. */
  function CreditedOn(lines: seq<Line>, a: Account): real {
    if lines == [] then 0.0
    else
      var l := lines[|lines| - 1];
      CreditedOn(lines[..|lines| - 1], a) + if l.account == a && l.direction == CreditSide then l.amount else 0.0
  }

  lemma {:induction false} GrossAndNet(lines: seq<Line>, a: Account)
    ensures Gross(lines, a) + Net(lines, a) == 2.0 * CreditedOn(lines, a)
  {
    if lines != [] { GrossAndNet(lines[..|lines| - 1], a); }
  }

  lemma {:induction false} CreditedPositiveIff(lines: seq<Line>, a: Account)
    requires forall l :: l in lines ==> l.amount > 0.0
    ensures CreditedOn(lines, a) >= 0.0
    ensures CreditedOn(lines, a) == 0.0 <==> forall l :: l in lines ==> l.account == a ==> l.direction == DebitSide
  {
    if lines != [] {
      var rest, last := lines[..|lines| - 1], lines[|lines| - 1];
      assert lines == rest + [last];
      CreditedPositiveIff(rest, a);
      if forall l :: l in lines ==> l.account == a ==> l.direction == DebitSide {
        assert forall l :: l in rest ==> l in lines;
        assert last in lines;
      }
    }
  }

  lemma AmountsPositive(s: Store, events: seq<Event>)
    requires Fresh(s)
    ensures forall l :: l in Run(s, events).lines ==> l.amount > 0.0
  {
    hide Run, Fresh, LinesOf;
    var t := Run(s, events);
    forall l | l in t.lines
      ensures l.amount > 0.0
    {
      var i :| 0 <= i < |t.lines| && t.lines[i] == l;
      JournalReconciles(s, events, i);
    }
  }

  /** The top-up balance is the gross of what was booked on it.  It is also debits less credits, the
      normal balance of such an account, exactly as long as no administrator debit was booked. */
  lemma {:induction false} TopupIsNetIff(s: Store, events: seq<Event>, currency: string)
    requires Fresh(s)
    ensures var t, a := Run(s, events), Topup(currency);
      && Balance(t, a) == Gross(t.lines, a)
      && (Balance(t, a) == -Net(t.lines, a) <==> forall l :: l in t.lines && l.account == a ==> l.direction == DebitSide)
  {
    FreshIsSound(s);
    BooksBalance(s, events);
    var t, a := Run(s, events), Topup(currency);
    hide Run, Fresh, Gross, Net, LinesOf, CreditedOn, Total, Journal, Income;
    AmountsPositive(s, events);
    assert Rows(t) && Books(t);
    OpenElsewhere(t.rows, a);
    assert Balance(t, a) + Total(t.rows, OpenIn(a)) == Booked(t.lines, a);
    GrossAndNet(t.lines, a);
    CreditedPositiveIff(t.lines, a);
  }

  lemma CreditMoves(s: Store, c: CreditRequest)
    requires CreditStep(s, c).outcome.Ok?
    ensures var t, currency := CreditStep(s, c).store, s.currencies[c.tenant];
      && t.currencies == s.currencies
      && Balance(t, Topup(currency)) == Balance(s, Topup(currency)) + c.amount
      && Balance(t, Prepaid(c.tenant, currency)) ==
           Balance(s, Prepaid(c.tenant, currency)) + (if c.direction == CreditSide then c.amount else -c.amount)
  {
    hide DecimalAccepted;
  }

  lemma TwoEvents(s: Store, e: Event, f: Event)
    ensures Run(s, [e, f]) == Apply(Apply(s, e).store, f).store
  {
    hide Apply;
    assert [e, f][1..] == [f] && [f][1..] == [];
    var t := Apply(s, e).store;
    assert Run(t, [f]) == Run(Apply(t, f).store, []);
  }

  /** Any credit followed by any debit of the same tenant shows the difference. */
  lemma DebitRaisesTopup(s: Store, up: CreditRequest, down: CreditRequest)
    requires up.tenant == down.tenant && up.direction == CreditSide && down.direction == DebitSide
    requires CreditStep(s, up).outcome.Ok? && CreditStep(CreditStep(s, up).store, down).outcome.Ok?
    requires up.tenant in s.currencies
    ensures var t := Run(s, [CreditEvent(up), CreditEvent(down)]);
      var currency := s.currencies[up.tenant];
      && Balance(t, Topup(currency)) == Balance(s, Topup(currency)) + up.amount + down.amount
      && Balance(t, Prepaid(up.tenant, currency)) == Balance(s, Prepaid(up.tenant, currency)) + up.amount - down.amount
  {
    hide CreditStep, Run, Balance;
    TwoEvents(s, CreditEvent(up), CreditEvent(down));
    CreditMoves(s, up);
    CreditMoves(CreditStep(s, up).store, down);
  }

  /** Ten credited and four debited leave six on the tenant's account and fourteen on top-up. */
  lemma {:induction false} TopupExample(s: Store, tenant: string)
    requires Fresh(s) && tenant in s.currencies
    ensures var currency := s.currencies[tenant];
      var t := Run(s, [CreditEvent(CreditRequest("first", tenant, "", 10.0, CreditSide)),
                       CreditEvent(CreditRequest("second", tenant, "", 4.0, DebitSide))]);
      Balance(t, Prepaid(tenant, currency)) == 6.0 && Balance(t, Topup(currency)) == 14.0
  {
    var up := CreditRequest("first", tenant, "", 10.0, CreditSide);
    var down := CreditRequest("second", tenant, "", 4.0, DebitSide);
    WholeAccepted(10);
    WholeAccepted(4);
    assert 10 as real == 10.0 && 4 as real == 4.0;
    hide DecimalAccepted, Run;
    assert up.key[0] != down.key[0];
    assert CreditStep(s, up).outcome.Ok?;
    assert CreditStep(CreditStep(s, up).store, down).outcome.Ok?;
    DebitRaisesTopup(s, up, down);
  }

  // ----- retries

  lemma ChargeKeyInjective(a: string, b: string)
    requires ChargeKey(a) == ChargeKey(b)
    ensures a == b
  {
    var p := "billing:charge:";
    assert ChargeKey(a)[|p|..] == a && ChargeKey(b)[|p|..] == b;
  }

  /** An open reservation was never charged: if the key of its charge is taken at all, then by an
      administrator's credit that used the same text. */
  lemma {:induction false} OpenIsUncharged(s: Store, id: string)
    requires Inv(s) && id in s.rows && Open(s.rows[id])
    ensures ChargeKey(s.rows[id].request) in s.transactions ==>
      !s.transactions[ChargeKey(s.rows[id].request)].ModelUsage?
    ensures forall k :: k in s.transactions ==> s.transactions[k] != ModelUsage(s.rows[id].request)
  {
    hide Books, Income, LinesOf, Balanced, ChargeKey, RowSound;
    forall k | k in s.transactions && s.transactions[k].ModelUsage?
      ensures s.transactions[k].request != s.rows[id].request && k != ChargeKey(s.rows[id].request)
    {
      var i :| ChargeOf(s, k, i) && s.transactions[k].request == s.rows[i].request;
      if k == ChargeKey(s.rows[id].request) { ChargeKeyInjective(s.rows[id].request, s.rows[i].request); }
    }
  }
}
