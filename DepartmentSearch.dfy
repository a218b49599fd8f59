/**
 * The department pickers: the worker cards (src/app/workers/page.js) and the
 * leader cards (src/app/leaders/page.js), each narrowed by a search box that
 * ignores letter case.
 */
module DepartmentSearch {
  import opened Wrappers
  import opened Text
  import opened SignIn

  /** A card: the department's name and the page it links to (letter and blurb are display only). */
  datatype Card = Card(name: string, href: string)

  /** `departments` of the worker picker. */
  const WorkerCards: seq<Card> := [
    Card("Parcel Dept", "/workers/parcelworker"),
    Card("Media Dept", "/workers/mediaworker"),
    Card("IELTS Masterclass Dept", "/workers/ielts-masterclass"),
    Card("Express CV Dept", "/workers/express-cv"),
    Card("Job Application Dept", "/workers/job-application"),
    Card("IELTS Booking Dept", "/workers/ielts-booking"),
    Card("Travel/Tour Dept", "/workers/travel-tour"),
    Card("OSCE Dept", "/workers/osce"),
    Card("Customer Service Dept", "/workers/customer-care"),
    Card("NCLEX Dept", "/workers/nclex"),
    Card("Marketing Dept", "/workers/marketing"),
    Card("IT Dept", "/workers/itdepartment")]

  /** `leaderDepartments` of the leader picker. */
  const LeaderCards: seq<Card> := [
    Card("Parcel Leader Form", "/leaders/parcel"),
    Card("Media Leader Form", "/leaders/media"),
    Card("IELTS Masterclass Leader Form", "/leaders/ielts-masterclass"),
    Card("Express CV Leader Form", "/leaders/express-cv"),
    Card("Job Application Leader Form", "/leaders/job-application"),
    Card("IELTS Booking Leader Form", "/leaders/ielts-booking"),
    Card("Travel/Tour Leader Form", "/leaders/travel-tour"),
    Card("OSCE Leader Form", "/leaders/osce"),
    Card("Customer Service Leader Form", "/leaders/customer-service"),
    Card("NCLEX Leader Form", "/leaders/nclex"),
    Card("Marketing Leader Form", "/leaders/marketing"),
    Card("IT Leader Form", "/leaders/it")]

  /** `name.toLowerCase().includes(search.toLowerCase())` */
  predicate MatchesSearch(c: Card, search: string) {
    Contains(Lower(c.name), Lower(search))
  }

  /**
   * `cards.filter(...)`: the matching cards, in their order, each as often as
   * in the list.
   */
  function SearchCards(cards: seq<Card>, search: string): (r: seq<Card>)
    ensures forall c :: multiset(r)[c] == if MatchesSearch(c, search) then multiset(cards)[c] else 0
    ensures forall i :: 0 <= i < |r| ==> MatchesSearch(r[i], search)
    ensures IsSubsequence(r, cards)
  {
    if cards == [] then []
    else
      var rest := SearchCards(cards[1..], search);
      assert cards == [cards[0]] + cards[1..];
      if MatchesSearch(cards[0], search) then
        assert ([cards[0]] + rest)[1..] == rest;
        [cards[0]] + rest
      else
        assert IsSubsequence(rest, cards) by {
          if rest != [] { assert rest[0] != cards[0]; }
        }
        rest
  }

  /** A card is shown exactly when its name contains the search text, ignoring case. */
  lemma ShownIffMatches(cards: seq<Card>, search: string, c: Card)
    requires c in cards
    ensures c in SearchCards(cards, search) <==> MatchesSearch(c, search)
  {
    assert multiset(cards)[c] > 0;
  }

  /** An empty search box shows every card. */
  lemma {:induction false} EmptySearchShowsAll(cards: seq<Card>)
    ensures SearchCards(cards, "") == cards
  {
    if cards != [] {
      assert Lower("") == "";
      EveryStringContainsEmpty(Lower(cards[0].name));
      assert MatchesSearch(cards[0], "");
      EmptySearchShowsAll(cards[1..]);
      assert SearchCards(cards, "") == [cards[0]] + SearchCards(cards[1..], "");
    }
  }

  /** Searches that differ only in letter case show the same cards. */
  lemma SearchIgnoresCase(cards: seq<Card>, search: string)
    ensures SearchCards(cards, Lower(search)) == SearchCards(cards, search)
  {
    LowerIdempotent(search);
    assert forall c :: MatchesSearch(c, Lower(search)) == MatchesSearch(c, search);
    SameMatchesSameResult(cards, Lower(search), search);
  }

  lemma {:induction false} SameMatchesSameResult(cards: seq<Card>, a: string, b: string)
    requires forall c :: MatchesSearch(c, a) == MatchesSearch(c, b)
    ensures SearchCards(cards, a) == SearchCards(cards, b)
  {
    if cards != [] {
      SameMatchesSameResult(cards[1..], a, b);
    }
  }

  /** The worker picker: the cards shown and, when none is, "No departments found.". */
  function WorkerPicker(search: string): (r: (seq<Card>, Option<string>))
    ensures r.0 == SearchCards(WorkerCards, search)
    ensures r.1 == (if r.0 == [] then Some("No departments found.") else None)
  {
    var shown := SearchCards(WorkerCards, search);
    (shown, if shown == [] then Some("No departments found.") else None)
  }

  /** The leader picker: the cards shown and, when none is, "No leader departments found.". */
  function LeaderPicker(search: string): (r: (seq<Card>, Option<string>))
    ensures r.0 == SearchCards(LeaderCards, search)
    ensures r.1 == (if r.0 == [] then Some("No leader departments found.") else None)
  {
    var shown := SearchCards(LeaderCards, search);
    (shown, if shown == [] then Some("No leader departments found.") else None)
  }

  /** With an empty search the worker picker shows all twelve cards and no empty-state message. */
  lemma EmptySearchShowsEveryWorkerCard()
    ensures WorkerPicker("").0 == WorkerCards && |WorkerCards| == 12 && WorkerPicker("").1 == None
  {
    EmptySearchShowsAll(WorkerCards);
  }

  /** With an empty search the leader picker shows all twelve cards and no empty-state message. */
  lemma EmptySearchShowsEveryLeaderCard()
    ensures LeaderPicker("").0 == LeaderCards && |LeaderCards| == 12 && LeaderPicker("").1 == None
  {
    EmptySearchShowsAll(LeaderCards);
  }

  /** Each worker card links to the page sign-in sends that department's members to. */
  lemma WorkerCardsMatchLandingPages(i: nat)
    requires i < |WorkerCards|
    ensures WorkerCards[i].name in DepartmentRoutes
    ensures DepartmentRoutes[WorkerCards[i].name] == WorkerCards[i].href
  {
  }
}
