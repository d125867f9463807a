/** A run in which an offer's record lists a site as taken over that the offer
    never moved. Sites 5 and 6 are account 1's; account 2 has address 9. The
    recipient's accept of offer 0 has passed its checks; meanwhile the sender
    takes site 5 out and hands it over in offer 1, and an edit checked earlier
    puts it back into offer 0 before the accept goes on. */
module StaleEdit {
  import opened Prelude
  import opened Offers
  import opened Protocol
  import opened Theorems

  const TRACE: seq<Action> := [
    OnSite(5, Make(1)), OnSite(6, Make(1)), Plan(0, Form([5, 6], Cancelling)), OnDraft(0, Create),
      Claim(0, 2, 9, [5, 6]),
    Edit(0, SetSites(1, [], [5])), Plan(1, Form([5], Cancelling)), OnDraft(1, Create),
      Claim(1, 2, 9, [5]), OnRun(1, Begin(50)),
    OnRun(1, Load), OnRun(1, Move(5)), OnRun(1, MarkDone(5)), OnRun(1, Finish), Edit(0, SetSites(1, [5], [])),
    OnRun(0, Begin(50)), OnRun(0, Load), OnRun(0, See(5)), OnRun(0, MarkDone(5))
  ]

  function Form(sites: seq<Site>, phase: DraftPhase): Draft {
    Draft(1, sites, 9, None, 100, [], 0, map[], phase)
  }

  function Rec(sites: seq<Site>, st: OfferState, done: seq<Site>, to: Account): Offer {
    Offer(sites, 1, 9, None, 100, st, done, to)
  }

  function St(offers: Book, five: Account, nextId: nat, runs: map<OfferId, Run>, drafts: map<nat, Draft>,
              starts: map<OfferId, Start>, moves: seq<(OfferId, Site)>): State {
    State(offers, map[5 := five, 6 := 1], {}, {5, 6}, nextId, runs, drafts, starts, moves)
  }

  const R0 := Run(2, Some([5, 6]), false, {})
  const R1 := Run(2, Some([5]), false, {})
  const L1 := Run(2, Some([5]), true, {})
  const K1 := Run(2, Some([5]), true, {5})
  const L0 := Run(2, Some([5, 6]), true, {})
  const K0 := Run(2, Some([5, 6]), true, {5})
  const OLD: Book := map[0 := Rec([6], Open, [], 0)]
  const NEW: Book := map[1 := Rec([5], Accepted, [5], 2)]
  const D0 := map[0 := Form([5, 6], Over)]
  const D1 := map[0 := Form([5, 6], Over), 1 := Form([5], Over)]
  const AT1 := map[1 := Start([5], map[5 := 1, 6 := 1])]
  const AT0 := map[1 := Start([5], map[5 := 1, 6 := 1]), 0 := Start([5, 6], map[5 := 2, 6 := 1])]

  /** The state before each action. */
  function At(k: nat): State
    requires k <= 19
  {
    match k
    case 0 => INIT
    case 1 => INIT.(owners := map[5 := 1], born := {5})
    case 2 => St(map[], 1, 0, map[], map[], map[], [])
    case 3 => St(map[], 1, 0, map[], map[0 := Form([5, 6], Cancelling)], map[], [])
    case 4 => St(map[0 := Rec([5, 6], Open, [], 0)], 1, 1, map[], D0, map[], [])
    case 5 => St(map[0 := Rec([5, 6], Open, [], 0)], 1, 1, map[0 := R0], D0, map[], [])
    case 6 => St(map[0 := Rec([6], Open, [], 0)], 1, 1, map[0 := R0], D0, map[], [])
    case 7 => St(map[0 := Rec([6], Open, [], 0)], 1, 1, map[0 := R0], D0[1 := Form([5], Cancelling)], map[], [])
    case 8 => St(map[0 := Rec([6], Open, [], 0), 1 := Rec([5], Open, [], 0)], 1, 2, map[0 := R0], D1, map[], [])
    case 9 => St(map[0 := Rec([6], Open, [], 0), 1 := Rec([5], Open, [], 0)], 1, 2, map[0 := R0, 1 := R1],
      D1, map[], [])
    case 10 => St(OLD[1 := Rec([5], Accepting, [], 2)], 1, 2, map[0 := R0, 1 := R1], D1, AT1, [])
    case 11 => St(OLD[1 := Rec([5], Accepting, [], 2)], 1, 2, map[0 := R0, 1 := L1], D1, AT1, [])
    case 12 => St(OLD[1 := Rec([5], Accepting, [], 2)], 2, 2, map[0 := R0, 1 := K1], D1, AT1, [(1, 5)])
    case 13 => St(OLD[1 := Rec([5], Accepting, [5], 2)], 2, 2, map[0 := R0, 1 := K1], D1, AT1, [(1, 5)])
    case 14 => St(OLD[1 := Rec([5], Accepted, [5], 2)], 2, 2, map[0 := R0, 1 := R1], D1, AT1, [(1, 5)])
    case 15 => St(NEW[0 := Rec([6, 5], Open, [], 0)], 2, 2, map[0 := R0, 1 := R1], D1, AT1, [(1, 5)])
    case 16 => St(NEW[0 := Rec([6, 5], Accepting, [], 2)], 2, 2, map[0 := R0, 1 := R1], D1, AT0, [(1, 5)])
    case 17 => St(NEW[0 := Rec([6, 5], Accepting, [], 2)], 2, 2, map[0 := L0, 1 := R1], D1, AT0, [(1, 5)])
    case 18 => St(NEW[0 := Rec([6, 5], Accepting, [], 2)], 2, 2, map[0 := K0, 1 := R1], D1, AT0, [(1, 5)])
    case _ => St(NEW[0 := Rec([6, 5], Accepting, [5], 2)], 2, 2, map[0 := K0, 1 := R1], D1, AT0, [(1, 5)])
  }

  lemma Edits()
    ensures BundleAfter([5, 6], [], [5]) == [6]
    ensures BundleAfter([6], [5], []) == [6, 5]
  {
    assert [5, 6][..1] == [5] && [5][..0] == [] && [6][..0] == [];
    assert Removed([5], [5]) == [] && Removed([], [5]) == [];
    assert Added([6], []) == [6];
  }

  lemma EditedBack()
    ensures Apply(Rec([6], Open, [], 0), SetSites(1, [5], [])) == Some(Rec([6, 5], Open, [], 0))
    ensures SitesFree(OLD[1 := Rec([5], Accepted, [5], 2)], 0, [6, 5])
    ensures OLD[1 := Rec([5], Accepted, [5], 2)][0 := Rec([6, 5], Open, [], 0)] == NEW[0 := Rec([6, 5], Open, [], 0)]
  {
    Edits();
    assert IsFinal(Accepted);
  }

  predicate Goes(k: nat)
    requires k < 19
  {
    Step(At(k), TRACE[k]) == At(k + 1)
  }

  lemma Goes0() ensures Goes(0) {}
  lemma Goes1() ensures Goes(1) {}
  lemma Goes2() ensures Goes(2) {}
  lemma Goes3() ensures Goes(3) {}
  lemma Goes4() ensures Goes(4) {}
  lemma Goes5() ensures Goes(5) { Edits(); }
  lemma Goes6() ensures Goes(6) {}
  lemma Goes7() ensures Goes(7) {}
  lemma Goes8() ensures Goes(8) {}
  lemma Goes9() ensures Goes(9) {}
  lemma Goes10() ensures Goes(10) {}
  lemma Goes11() ensures Goes(11) {
    assert L1.(known := L1.known + {5}) == K1;
    assert At(11).owners[5 := 2] == At(12).owners && At(11).runs[1 := K1] == At(12).runs;
  }
  lemma Goes12() ensures Goes(12) {
    assert [] + [5] == [5];
    assert At(12).offers[1 := Rec([5], Accepting, [5], 2)] == At(13).offers;
  }
  lemma Goes13() ensures Goes(13) {
    assert NotDone(Rec([5], Accepting, [5], 2)) == {};
    assert At(13).runs[1 := R1] == At(14).runs;
  }
  lemma Goes14() ensures Goes(14) {
    var c := SetSites(1, [5], []);
    EditedBack();
    assert Put(At(14).offers, 0, Rec([6, 5], Open, [], 0)) == Some(At(15).offers);
    assert StepEdit(At(14), 0, c) == At(15);
    assert GoodChange(At(14), c);
  }
  lemma Goes15() ensures Goes(15) {}
  lemma Goes16() ensures Goes(16) {}
  lemma Goes17() ensures Goes(17) {
    assert L0.(known := L0.known + {5}) == K0;
    assert At(17).runs[0 := K0] == At(18).runs;
  }
  lemma Goes18() ensures Goes(18) {
    assert [] + [5] == [5];
    assert At(18).offers[0 := Rec([6, 5], Accepting, [5], 2)] == At(19).offers;
  }

  lemma EachGoes(k: nat)
    requires k < 19
    ensures Goes(k)
  {
    match k
    case 0 => Goes0();
    case 1 => Goes1();
    case 2 => Goes2();
    case 3 => Goes3();
    case 4 => Goes4();
    case 5 => Goes5();
    case 6 => Goes6();
    case 7 => Goes7();
    case 8 => Goes8();
    case 9 => Goes9();
    case 10 => Goes10();
    case 11 => Goes11();
    case 12 => Goes12();
    case 13 => Goes13();
    case 14 => Goes14();
    case 15 => Goes15();
    case 16 => Goes16();
    case 17 => Goes17();
    case _ => Goes18();
  }

  lemma {:induction false} Reaches(k: nat)
    requires k <= 19
    ensures Exec(INIT, TRACE[..k]) == At(k)
  {
    if k > 0 {
      Reaches(k - 1);
      assert TRACE[..k][..k - 1] == TRACE[..k - 1];
      EachGoes(k - 1);
    }
  }

  ghost predicate TakenUnmoved(s: State, id: OfferId, x: Site) {
    id in s.offers && s.offers[id].state.Accepting? && x in s.offers[id].done && (id, x) !in s.moves
  }

  lemma TakenAtTheEnd() ensures TakenUnmoved(At(19), 0, 5) {}

  lemma DoneWithoutMoving()
    ensures exists trace :: TakenUnmoved(Exec(INIT, trace), 0, 5)
  {
    Reaches(19);
    TakenAtTheEnd();
    assert TakenUnmoved(Exec(INIT, TRACE[..19]), 0, 5);
  }
}
