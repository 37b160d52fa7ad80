/**
 * The board picker's list: the boards of the chosen category (or of all
 * categories), narrowed by a case-insensitive title search and by difficulty,
 * and the badge colour of a difficulty.
 */
module BoardSelection {
  import opened Boards
  import opened Seqs

  /** `toLowerCase` on one character; only the ASCII letters are folded here. */
  function LowerChar(c: char): (l: char)
    ensures !('A' <= l <= 'Z')
  {
    if 'A' <= c <= 'Z' then (c as int + 32) as char else c
  }

  /** `toLowerCase`: no upper-case ASCII letter is left, and every other character is kept. */
  function Lower(s: string): (l: string)
    ensures |l| == |s|
    ensures forall i :: 0 <= i < |l| ==> !('A' <= l[i] <= 'Z')
    ensures forall i :: 0 <= i < |s| && !('A' <= s[i] <= 'Z') ==> l[i] == s[i]
    ensures forall i :: 0 <= i < |s| ==> l[i] == LowerChar(s[i])
  {
    seq(|s|, i requires 0 <= i < |s| => LowerChar(s[i]))
  }

  /** Lower-casing twice is lower-casing once. */
  lemma LowerIdempotent(s: string)
    ensures Lower(Lower(s)) == Lower(s)
  {
  }

  /** `t` appears in `s` starting at position `i`. */
  predicate OccursAt(s: string, t: string, i: int) {
    0 <= i && i + |t| <= |s| && s[i..i + |t|] == t
  }

  /** `s.includes(t)`. */
  predicate Includes(s: string, t: string) {
    exists i :: 0 <= i <= |s| - |t| && OccursAt(s, t, i)
  }

  /** The difficulty as the string the filter compares against. */
  function DifficultyName(d: Difficulty): string {
    match d
    case Easy => "Easy"
    case Medium => "Medium"
    case Hard => "Hard"
  }

  /** The list before any filter: every board for "all", else the category's boards or none. */
  function BaseBoards(cats: seq<BoardCategory>, category: string): (bs: seq<Board>)
    ensures category == "all" ==> bs == AllBoardsOf(cats)
    ensures category != "all" && (forall j :: 0 <= j < |cats| ==> cats[j].id != category) ==> bs == []
    ensures category != "all" ==> bs == BoardsByCategoryOf(cats, category)
  {
    if category == "all" then AllBoardsOf(cats) else BoardsByCategoryOf(cats, category)
  }

  predicate MatchesSearch(b: Board, search: string) {
    Includes(Lower(b.title), Lower(search))
  }

  predicate MatchesDifficulty(b: Board, difficulty: string) {
    DifficultyName(b.difficulty) == difficulty
  }

  /**
   * `getFilteredBoards()` with the component's state as parameters; the
   * component passes the shipped catalogue as `cats`.
   */
  function FilteredBoards(cats: seq<BoardCategory>, category: string, search: string, difficulty: string)
    : (r: seq<Board>)
    ensures IsSubsequence(r, BaseBoards(cats, category))
    ensures search != "" ==> forall b :: b in r ==> MatchesSearch(b, search)
    ensures difficulty != "all" ==> forall b :: b in r ==> MatchesDifficulty(b, difficulty)
    ensures forall b :: b in r <==> (b in BaseBoards(cats, category) &&
      (search == "" || MatchesSearch(b, search)) &&
      (difficulty == "all" || MatchesDifficulty(b, difficulty)))
    ensures search == "" && difficulty == "all" ==> r == BaseBoards(cats, category)
  {
    var boards := BaseBoards(cats, category);
    var searched := if search != "" then Filter(boards, b => MatchesSearch(b, search)) else boards;
    var result := if difficulty != "all" then Filter(searched, b => MatchesDifficulty(b, difficulty)) else searched;
    SubsequenceReflexive(boards);
    SubsequenceReflexive(searched);
    SubsequenceTransitive(result, searched, boards);
    result
  }

  /** The search ignores letter case: searching for the lower-cased term gives the same list. */
  lemma SearchIgnoresCase(cats: seq<BoardCategory>, category: string, search: string, difficulty: string)
    requires search != ""
    ensures FilteredBoards(cats, category, Lower(search), difficulty) == FilteredBoards(cats, category, search, difficulty)
  {
    LowerIdempotent(search);
    var p1 := (b: Board) => MatchesSearch(b, search);
    var p2 := (b: Board) => MatchesSearch(b, Lower(search));
    assert forall b :: p1(b) == p2(b);
    FilterSamePredicate(BaseBoards(cats, category), p1, p2);
  }

  lemma {:induction false} FilterSamePredicate<T>(s: seq<T>, p: T -> bool, q: T -> bool)
    requires forall x :: p(x) == q(x)
    ensures Filter(s, p) == Filter(s, q)
    decreases |s|
  {
    if s != [] {
      FilterSamePredicate(s[1..], p, q);
    }
  }

  const EasyBadge := "text-green-600 bg-green-100"
  const MediumBadge := "text-yellow-600 bg-yellow-100"
  const HardBadge := "text-red-600 bg-red-100"
  const OtherBadge := "text-gray-600 bg-gray-100"

  /** `getDifficultyColor(difficulty)`. */
  function DifficultyColor(difficulty: string): (c: string)
    ensures c == OtherBadge <==> difficulty !in {"Easy", "Medium", "Hard"}
  {
    match difficulty
    case "Easy" => EasyBadge
    case "Medium" => MediumBadge
    case "Hard" => HardBadge
    case _ => OtherBadge
  }

  /** Every board's difficulty has its own badge colour: green, yellow or red, never gray. */
  lemma BadgeOfBoard(d: Difficulty, e: Difficulty)
    ensures DifficultyColor(DifficultyName(d)) != OtherBadge
    ensures d == Easy <==> DifficultyColor(DifficultyName(d)) == EasyBadge
    ensures d == Medium <==> DifficultyColor(DifficultyName(d)) == MediumBadge
    ensures d == Hard <==> DifficultyColor(DifficultyName(d)) == HardBadge
    ensures d != e ==> DifficultyColor(DifficultyName(d)) != DifficultyColor(DifficultyName(e))
  {
  }
}
