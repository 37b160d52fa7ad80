/**
 * The saved-paintings list of a signed-in user: its state (the list, the
 * loading flag, the error message), how a fetch result and a delete change
 * it, and the colour of a painting's completion badge.
 */
module UserPaintings {
  import opened PaintTypes
  import opened Seqs
  import opened Completion

  const CompleteBadge := "text-green-600 bg-green-100"
  const HalfwayBadge := "text-yellow-600 bg-yellow-100"
  const StartedBadge := "text-blue-600 bg-blue-100"

  /**
   * `getCompletionColor(percentage)`: green at exactly 100, yellow from 50 on
   * (above 100 too), blue below 50; NaN fails both comparisons and is blue.
   */
  function CompletionColor(p: Percent): (c: string)
    ensures c == CompleteBadge <==> p == Value(100)
    ensures c == HalfwayBadge <==> p.Value? && p.n >= 50 && p.n != 100
    ensures c == StartedBadge <==> p.NaN? || p.n < 50
  {
    if p == Value(100) then CompleteBadge
    else if p.Value? && p.n >= 50 then HalfwayBadge
    else StartedBadge
  }

  /** A painting saved with every region painted shows the green badge; one with none painted, blue. */
  lemma BadgeOfSavedPainting(regions: seq<Region>)
    requires |regions| > 0
    ensures PaintedCount(regions) == |regions| ==> CompletionColor(CompletionPercentage(regions)) == CompleteBadge
    ensures PaintedCount(regions) == 0 ==> CompletionColor(CompletionPercentage(regions)) == StartedBadge
    ensures IsCompleted(CompletionPercentage(regions)) <==> CompletionColor(CompletionPercentage(regions)) == CompleteBadge
  {
    PercentageRange(PaintedCount(regions), |regions|);
  }

  /** What `getUserPaintings` came back with. */
  datatype FetchResult =
    | FetchError(message: string)
    | Fetched(data: Option<seq<UserPainting>>)
    | FetchThrew

  /** What `deletePainting` came back with; a failure only raises an alert. */
  datatype DeleteResult = Deleted | DeleteError | DeleteThrew

  /** The paintings that remain after deleting `id`. */
  function Without(paintings: seq<UserPainting>, id: string): (rest: seq<UserPainting>)
    ensures forall p :: p in rest <==> p in paintings && p.id != id
    ensures IsSubsequence(rest, paintings)
    ensures forall p :: p in paintings ==> multiset(rest)[p] == if p.id != id then multiset(paintings)[p] else 0
  {
    Filter(paintings, (p: UserPainting) => p.id != id)
  }

  /** Deleting an id no painting has leaves the list as it is. */
  lemma WithoutAbsent(paintings: seq<UserPainting>, id: string)
    requires forall i :: 0 <= i < |paintings| ==> paintings[i].id != id
    ensures Without(paintings, id) == paintings
  {
    FilterKeepsAll(paintings, (p: UserPainting) => p.id != id);
  }

  /** Deleting the same id twice is deleting it once. */
  lemma WithoutIdempotent(paintings: seq<UserPainting>, id: string)
    ensures Without(Without(paintings, id), id) == Without(paintings, id)
  {
    var once := Without(paintings, id);
    assert forall i :: 0 <= i < |once| ==> once[i] in once;
    WithoutAbsent(once, id);
  }

  class PaintingsList {
    var paintings: seq<UserPainting>
    var loading: bool
    var error: Option<string>

    /** The component's initial state: no paintings, loading, no error. */
    constructor()
      ensures paintings == [] && loading && error == None
    {
      paintings := [];
      loading := true;
      error := None;
    }

    /**
     * `loadPaintings` once the fetch has settled: an error or a throw records
     * the message and keeps the list, success replaces the list (with [] for
     * no data) and keeps any earlier error; loading ends either way.
     */
    method LoadPaintings(result: FetchResult)
      modifies this
      ensures !loading
      ensures result.FetchError? ==> error == Some(result.message) && paintings == old(paintings)
      ensures result.FetchThrew? ==> error == Some("Failed to load paintings") && paintings == old(paintings)
      ensures result.Fetched? ==> error == old(error)
      ensures result.Fetched? && result.data.Some? ==> paintings == result.data.value
      ensures result.Fetched? && result.data.None? ==> paintings == []
    {
      loading := true;
      match result {
        case FetchError(message) =>
          error := Some(message);
        case Fetched(data) =>
          paintings := if data.Some? then data.value else [];
        case FetchThrew =>
          error := Some("Failed to load paintings");
      }
      loading := false;
    }

    /**
     * `handleDeletePainting(id)`: unless the user confirms and the delete
     * succeeds, nothing changes; otherwise exactly the paintings with that id
     * go, the others stay in order.
     */
    method DeletePainting(id: string, confirmed: bool, result: DeleteResult)
      modifies this`paintings
      ensures confirmed && result == Deleted ==> paintings == Without(old(paintings), id)
      ensures !(confirmed && result == Deleted) ==> paintings == old(paintings)
    {
      if !confirmed {
        return;
      }
      if result == Deleted {
        paintings := Without(paintings, id);
      }
    }
  }
}
