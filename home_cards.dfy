/** The dashboard's four status cards: the counts start at zero, a successful
    request replaces them with the response's `status_counts` object, and each
    card reads "<count> Project" with an "s" unless the count is exactly 1. */
module HomeCards {
  import opened Common

  const PendingKey := "pending"
  const ActiveKey := "active"
  const CompletedKey := "completed"
  const OnHoldKey := "on_hold"

  const ErrorFetchingCountsLabel := "Error fetching project status counts:"

  /** The counts as the page holds them: whatever object the backend sent, so
      a key may be absent. */
  type StatusCounts = map<string, int>

  const InitialCounts: StatusCounts :=
    map[PendingKey := 0, ActiveKey := 0, CompletedKey := 0, OnHoldKey := 0]

  datatype Card = Card(title: string, statusKey: string, color: string)

  /** `cardData`, in the order the grid shows it. */
  const CardData: seq<Card> := [
    Card("Pending", PendingKey, "text-yellow-300"),
    Card("Active", ActiveKey, "text-green-400"),
    Card("Completed", CompletedKey, "text-blue-500"),
    Card("On Hold", OnHoldKey, "text-red-400")
  ]

  /** `statusCounts[key]`: undefined when the object lacks the key. */
  function CountOf(counts: StatusCounts, key: string): (c: Option<int>)
    ensures c.Some? <==> key in counts
    ensures c.Some? ==> c.value == counts[key]
  {
    if key in counts then Some(counts[key]) else None
  }

  /** `count !== 1 ? "s" : ""`; an undefined count is not 1. */
  function PluralSuffix(count: Option<int>): (suffix: string)
    ensures suffix == "" <==> count == Some(1)
    ensures suffix != "" ==> suffix == "s"
  {
    if count == Some(1) then "" else "s"
  }

  /** The card's second line: the count (React renders undefined as nothing),
      then " Project" and the suffix. */
  function CountText(count: Option<int>): (text: string)
    ensures |text| >= 8 && (count.Some? ==> |text| > |IntToString(count.value)|)
    ensures count.Some? ==> text[..|IntToString(count.value)|] == IntToString(count.value)
    ensures count.None? ==> text == " Projects"
    ensures text[|text| - 1] == 's' <==> count != Some(1)
    ensures count == Some(1) ==> text == "1 Project"
  {
    var shown := if count.Some? then IntToString(count.value) else "";
    var text := shown + " Project" + PluralSuffix(count);
    assert text[..|shown|] == shown;
    assert count == Some(1) ==> IntToString(1) == "1";
    text
  }

  datatype CardView = CardView(heading: string, countText: string)

  /** The rendered grid: one card per entry of `cardData`, in order. */
  function Cards(counts: StatusCounts): (cards: seq<CardView>)
    ensures |cards| == |CardData|
    ensures forall i :: 0 <= i < |CardData| ==>
      cards[i] == CardView(CardData[i].title + " Projects", CountText(CountOf(counts, CardData[i].statusKey)))
  {
    seq(|CardData|, i requires 0 <= i < |CardData| =>
      CardView(CardData[i].title + " Projects", CountText(CountOf(counts, CardData[i].statusKey))))
  }

  /** The cards come in the order pending, active, completed, on hold, one per
      status the initial state counts. */
  lemma {:induction false} CardOrder()
    ensures |CardData| == 4
    ensures CardData[0].statusKey == PendingKey && CardData[1].statusKey == ActiveKey
    ensures CardData[2].statusKey == CompletedKey && CardData[3].statusKey == OnHoldKey
    ensures forall i :: 0 <= i < |CardData| ==> CardData[i].statusKey in InitialCounts
    ensures InitialCounts.Keys == {PendingKey, ActiveKey, CompletedKey, OnHoldKey}
  {
  }

  /** Before any answer arrives every card reads "0 Projects". */
  lemma {:induction false} InitialCardsReadZero()
    ensures forall i :: 0 <= i < |CardData| ==> Cards(InitialCounts)[i].countText == "0 Projects"
  {
    assert IntToString(0) == "0";
    forall i | 0 <= i < |CardData|
      ensures CountOf(InitialCounts, CardData[i].statusKey) == Some(0)
    {
      CardOrder();
    }
  }

  class HomeCardsState {
    var statusCounts: StatusCounts

    constructor ()
      ensures statusCounts == InitialCounts
    {
      statusCounts := InitialCounts;
    }

    /** The mount effect: on success the response's counts replace the old ones
        wholesale; on failure the counts stay and the error is logged. */
    method Load<E>(outcome: Outcome<StatusCounts, E>) returns (logs: seq<string>)
      modifies this
      ensures outcome.Ok? ==> statusCounts == outcome.body && logs == []
      ensures outcome.Err? ==> statusCounts == old(statusCounts) && logs == [ErrorFetchingCountsLabel]
    {
      match outcome {
        case Ok(body) =>
          statusCounts := body;
          logs := [];
        case Err(_) =>
          logs := [ErrorFetchingCountsLabel];
      }
    }

    function Render(): seq<CardView>
      reads this
    {
      Cards(statusCounts)
    }
  }

  /** The replacement is wholesale: a status the response leaves out is not
      kept at its old count but shows no number at all. */
  lemma {:induction false} OmittedStatusLosesItsCount(counts: StatusCounts, i: int)
    requires 0 <= i < |CardData| && CardData[i].statusKey !in counts
    ensures Cards(counts)[i].countText == " Projects"
    ensures Cards(counts)[i].heading == CardData[i].title + " Projects"
  {
  }
}
