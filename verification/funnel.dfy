/**
  The event chain of one Lavka session: `open_app`, then a run of coin
  flips that each may append one funnel step. Removing from the cart,
  applying a coupon and reaching the payment page all require the
  `add_to_cart` step; finishing the payment requires the payment page.
  The flips for those dependent steps are only drawn when the step they
  depend on is present, so the number of draws a session consumes depends
  on its outcome.

  Both generator versions share the chain; they differ in the probability
  of abandoning the cart and of finishing the payment (the second version
  raises the latter for the test group of its experiment).
 */
module Funnel {
  import opened Draws

  datatype Step =
    | OpenApp | Search | ViewProduct | AddToCart | RemoveFromCart | AbandonCart
    | ApplyCoupon | PayPage | FinishPay | Like | ScrollPage

  /** The order in which a session appends its steps. */
  const Canonical: seq<Step> := [
    OpenApp, Search, ViewProduct, AddToCart, RemoveFromCart, AbandonCart,
    ApplyCoupon, PayPage, FinishPay, Like, ScrollPage
  ]

  /** The position of a step in `Canonical`. */
  function Rank(e: Step): nat
  {
    match e
    case OpenApp => 0
    case Search => 1
    case ViewProduct => 2
    case AddToCart => 3
    case RemoveFromCart => 4
    case AbandonCart => 5
    case ApplyCoupon => 6
    case PayPage => 7
    case FinishPay => 8
    case Like => 9
    case ScrollPage => 10
  }

  lemma RankIsPosition(k: nat)
    requires k < |Canonical|
    ensures forall e :: Rank(e) == k <==> e == Canonical[k]
  {
  }

  /** Steps in strictly increasing canonical position: no step twice, none out of order. */
  predicate Ordered(chain: seq<Step>)
  {
    forall i, j :: 0 <= i < j < |chain| ==> Rank(chain[i]) < Rank(chain[j])
  }

  /** The outcome of every flip of one session. */
  datatype Coins = Coins(
    search: bool, view: bool, add: bool, remove: bool, abandon: bool,
    coupon: bool, pay: bool, finish: bool, like: bool, scroll: bool)

  /** The dependencies between steps that the flips respect. */
  predicate Consistent(c: Coins)
  {
    (c.remove ==> c.add) && (c.coupon ==> c.add) && (c.pay ==> c.add) && (c.finish ==> c.pay)
  }

  /** Whether the session with flips `c` contains step `e`. */
  predicate Has(c: Coins, e: Step)
  {
    match e
    case OpenApp => true
    case Search => c.search
    case ViewProduct => c.view
    case AddToCart => c.add
    case RemoveFromCart => c.remove
    case AbandonCart => c.abandon
    case ApplyCoupon => c.coupon
    case PayPage => c.pay
    case FinishPay => c.finish
    case Like => c.like
    case ScrollPage => c.scroll
  }

  /** The probabilities in which the two versions and the two experiment arms differ. */
  datatype Thresholds = Thresholds(abandon: real, finish: real)

  /** Version 1: abandon with 0.4, finish the payment with 0.8. */
  const V1Thresholds: Thresholds := Thresholds(0.4, 0.8)

  /** Version 2: abandon with 0.7, finish with 0.3 in the test group and 0.2 otherwise. */
  function V2Thresholds(test: bool): (th: Thresholds)
    ensures th.abandon == 0.7
    ensures test ==> th.finish == 0.3
    ensures !test ==> th.finish == 0.2
  {
    Thresholds(0.7, if test then 0.3 else 0.2)
  }

  /**
    The flips of `generate_session_events` from draw p, in the order they
    are made: search, view, add; remove only after an add;
    abandon; coupon and payment page only when the cart was added to (the
    `'add_to_cart' in event_chain and ...` test draws nothing otherwise);
    finish only after the payment page; like; scroll.
   */
  function CoinsAt(th: Thresholds, s: Stream, p: nat): (r: Drawn<Coins>)
    ensures Consistent(r.value)
    ensures r.next == p + 6 + (if r.value.add then 3 else 0) + (if r.value.pay then 1 else 0)
    ensures r.value.search <==> UnitAt(s, p) < 0.9
    ensures r.value.add <==> UnitAt(s, p + 2) < 0.6
  {
    var search := UnitAt(s, p) < 0.9;
    var view := UnitAt(s, p + 1) < 0.7;
    var add := UnitAt(s, p + 2) < 0.6;
    var remove := add && UnitAt(s, p + 3) < 0.3;
    var q := if add then p + 4 else p + 3;
    var abandon := UnitAt(s, q) < th.abandon;
    var coupon := add && UnitAt(s, q + 1) < 0.5;
    var q2 := if add then q + 2 else q + 1;
    var pay := add && UnitAt(s, q2) < 0.5;
    var q3 := if add then q2 + 1 else q2;
    var finish := pay && UnitAt(s, q3) < th.finish;
    var q4 := if pay then q3 + 1 else q3;
    var like := UnitAt(s, q4) < 0.5;
    var scroll := UnitAt(s, q4 + 1) < 0.7;
    Drawn(Coins(search, view, add, remove, abandon, coupon, pay, finish, like, scroll), q4 + 2)
  }

  function Opt(b: bool, e: Step): (r: seq<Step>)
    ensures |r| == if b then 1 else 0
  {
    if b then [e] else []
  }

  /** `event_chain`: the steps the flips select, appended in the order the function tests them. */
  function ChainOf(c: Coins): (chain: seq<Step>)
    ensures 1 <= |chain| <= |Canonical|
    ensures chain[0] == OpenApp
  {
    [OpenApp] + (Opt(c.search, Search) + (Opt(c.view, ViewProduct) + (Opt(c.add, AddToCart)
    + (Opt(c.remove, RemoveFromCart) + (Opt(c.abandon, AbandonCart) + (Opt(c.coupon, ApplyCoupon)
    + (Opt(c.pay, PayPage) + (Opt(c.finish, FinishPay) + (Opt(c.like, Like) + Opt(c.scroll, ScrollPage))))))))))
  }

  /** The session's chain read from the flips: the first draw of the session, then its chain. */
  function ChainAt(th: Thresholds, s: Stream, p: nat): (r: Drawn<seq<Step>>)
    ensures 1 <= |r.value| && r.value[0] == OpenApp && Ordered(r.value)
    ensures forall e :: e in r.value <==> Has(CoinsAt(th, s, p).value, e)
    ensures r.next == CoinsAt(th, s, p).next
  {
    var c := CoinsAt(th, s, p);
    ChainSelectsCanonically(c.value);
    Drawn(ChainOf(c.value), c.next)
  }

  // ---------------------------------------------------------------------------
  // The chain as a selection from the canonical order

  /**
    The steps the flips select among those from canonical position k on,
    in canonical order: the reference definition of a chain.
   */
  function Selected(c: Coins, k: nat): (r: seq<Step>)
    requires k <= |Canonical|
    decreases |Canonical| - k
  {
    if k == |Canonical| then []
    else Opt(Has(c, Canonical[k]), Canonical[k]) + Selected(c, k + 1)
  }

  lemma {:induction false} SelectedMembers(c: Coins, k: nat)
    requires k <= |Canonical|
    ensures forall e :: e in Selected(c, k) <==> Has(c, e) && k <= Rank(e)
    decreases |Canonical| - k
  {
    if k < |Canonical| {
      SelectedMembers(c, k + 1);
      RankIsPosition(k);
    }
  }

  lemma {:induction false} SelectedOrdered(c: Coins, k: nat)
    requires k <= |Canonical|
    ensures Ordered(Selected(c, k))
    decreases |Canonical| - k
  {
    if k < |Canonical| {
      SelectedOrdered(c, k + 1);
      SelectedMembers(c, k + 1);
      var rest := Selected(c, k + 1);
      RankIsPosition(k);
      if Has(c, Canonical[k]) {
        assert forall e <- rest :: Rank(Canonical[k]) < Rank(e);
        OrderedCons(Canonical[k], rest);
        assert Ordered([Canonical[k]] + rest);
        assert Selected(c, k) == [Canonical[k]] + rest;
      } else {
        assert Selected(c, k) == rest;
      }
    }
  }

  lemma OrderedCons(x: Step, rest: seq<Step>)
    requires Ordered(rest)
    requires forall e <- rest :: Rank(x) < Rank(e)
    ensures Ordered([x] + rest)
  {
    var r := [x] + rest;
    forall i, j | 0 <= i < j < |r|
      ensures Rank(r[i]) < Rank(r[j])
    {
      assert r[j] == rest[j - 1] && r[j] in rest;
      if i > 0 {
        assert r[i] == rest[i - 1];
      }
    }
  }

  /** The last four selections of a chain, read from the canonical order. */
  lemma SelectedTail(c: Coins)
    ensures Selected(c, 7) == Opt(c.pay, PayPage) + (Opt(c.finish, FinishPay)
                              + (Opt(c.like, Like) + Opt(c.scroll, ScrollPage)))
  {
    var x10 := Opt(c.scroll, ScrollPage);
    assert Selected(c, 10) == x10 + Selected(c, 11) == x10;
    var x9 := Opt(c.like, Like) + x10;
    assert Selected(c, 9) == x9;
    var x8 := Opt(c.finish, FinishPay) + x9;
    assert Selected(c, 8) == x8;
  }

  /** The cart selections of a chain, read from the canonical order. */
  lemma SelectedMiddle(c: Coins)
    ensures Selected(c, 3) == Opt(c.add, AddToCart) + (Opt(c.remove, RemoveFromCart)
                              + (Opt(c.abandon, AbandonCart) + (Opt(c.coupon, ApplyCoupon) + Selected(c, 7))))
  {
    var x6 := Opt(c.coupon, ApplyCoupon) + Selected(c, 7);
    assert Selected(c, 6) == x6;
    var x5 := Opt(c.abandon, AbandonCart) + x6;
    assert Selected(c, 5) == x5;
    var x4 := Opt(c.remove, RemoveFromCart) + x5;
    assert Selected(c, 4) == x4;
  }

  lemma SelectedIsChain(c: Coins)
    ensures ChainOf(c) == Selected(c, 0)
  {
    SelectedTail(c);
    SelectedMiddle(c);
    var x3 := Selected(c, 3);
    var x2 := Opt(c.view, ViewProduct) + x3;
    assert Selected(c, 2) == x2;
    var x1 := Opt(c.search, Search) + x2;
    assert Selected(c, 1) == x1;
    assert ChainOf(c) == [OpenApp] + x1;
  }

  /**
    The chain the function builds is the canonical order with the unselected
    steps struck out; so it holds exactly the selected steps, each once, in
    canonical order.
   */
  lemma ChainSelectsCanonically(c: Coins)
    ensures ChainOf(c) == Selected(c, 0)
    ensures Ordered(ChainOf(c))
    ensures forall e :: e in ChainOf(c) <==> Has(c, e)
  {
    SelectedIsChain(c);
    SelectedMembers(c, 0);
    SelectedOrdered(c, 0);
  }

  /** Removing, couponing and paying only follow an add to cart. */
  lemma CartStepsNeedAdd(c: Coins)
    requires Consistent(c)
    ensures RemoveFromCart in ChainOf(c) || ApplyCoupon in ChainOf(c) || PayPage in ChainOf(c)
            ==> AddToCart in ChainOf(c)
  {
    ChainSelectsCanonically(c);
  }

  /** A finished payment comes right after the payment page. */
  lemma FinishRightAfterPay(c: Coins)
    requires Consistent(c)
    ensures FinishPay in ChainOf(c) ==>
              exists i :: 1 <= i < |ChainOf(c)| && ChainOf(c)[i] == FinishPay && ChainOf(c)[i - 1] == PayPage
  {
    ChainSelectsCanonically(c);
    if c.finish {
      FinishFollowsPay(ChainOf(c));
    }
  }

  /** In an ordered chain holding both, the finished payment comes right after the payment page. */
  lemma FinishFollowsPay(chain: seq<Step>)
    requires Ordered(chain) && FinishPay in chain && PayPage in chain
    ensures exists i :: 1 <= i < |chain| && chain[i] == FinishPay && chain[i - 1] == PayPage
  {
    var i :| 0 <= i < |chain| && chain[i] == FinishPay;
    var j :| 0 <= j < |chain| && chain[j] == PayPage;
    assert j < i;
    assert Rank(chain[i - 1]) < Rank(chain[i]);
    assert j == i - 1;
  }

  // ---------------------------------------------------------------------------
  // The two experiment arms

  /** The arms of the second version draw the same flips except the finishing one, and a control finish is a test finish. */
  lemma TestArmOnlyRaisesFinish(s: Stream, p: nat)
    ensures var t := CoinsAt(V2Thresholds(true), s, p);
            var k := CoinsAt(V2Thresholds(false), s, p);
            t.next == k.next
            && t.value.(finish := false) == k.value.(finish := false)
            && (k.value.finish ==> t.value.finish)
  {
  }

  lemma HasIgnoresFinish(a: Coins, b: Coins, e: Step)
    requires a.(finish := false) == b.(finish := false) && e != FinishPay
    ensures Has(a, e) == Has(b, e)
  {
    assert a.(finish := false).search == a.search && b.(finish := false).search == b.search;
  }

  /**
    Hence a test session's chain is the control session's chain, with at
    most a finished payment added.
   */
  lemma TestChainExtendsControlChain(s: Stream, p: nat)
    ensures var t := ChainAt(V2Thresholds(true), s, p).value;
            var k := ChainAt(V2Thresholds(false), s, p).value;
            (forall e :: e != FinishPay ==> (e in t <==> e in k)) && (FinishPay in k ==> FinishPay in t)
  {
    TestArmOnlyRaisesFinish(s, p);
    var ct := CoinsAt(V2Thresholds(true), s, p).value;
    var ck := CoinsAt(V2Thresholds(false), s, p).value;
    forall e | e != FinishPay
      ensures Has(ct, e) == Has(ck, e)
    {
      HasIgnoresFinish(ct, ck, e);
    }
  }
}
