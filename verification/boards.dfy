/**
 * The built-in board catalogue: categories of ready-made pictures to paint,
 * and the three lookups over it (every board, a category's boards, a board by
 * id). The lookups are stated over any catalogue; `Catalogue()` is the one
 * the application ships.
 */
module Boards {
  import opened PaintTypes

  datatype Difficulty = Easy | Medium | Hard

  datatype Board = Board(
    id: string,
    title: string,
    imageUrl: string,
    difficulty: Difficulty,
    estimatedTime: string,
    colors: int)

  datatype BoardCategory = BoardCategory(
    id: string,
    name: string,
    icon: string,
    description: string,
    boards: seq<Board>)

  /** `getAllBoards` over `cats`: `cats.flatMap(category => category.boards)`. */
  function AllBoardsOf(cats: seq<BoardCategory>): (bs: seq<Board>)
    ensures cats == [] ==> bs == []
    ensures cats != [] ==> |cats[0].boards| <= |bs| && bs[..|cats[0].boards|] == cats[0].boards
  {
    if cats == [] then [] else cats[0].boards + AllBoardsOf(cats[1..])
  }

  /** Flattening distributes over concatenation of category lists. */
  lemma {:induction false} AllBoardsAppend(a: seq<BoardCategory>, b: seq<BoardCategory>)
    ensures AllBoardsOf(a + b) == AllBoardsOf(a) + AllBoardsOf(b)
    decreases |a|
  {
    if a == [] {
      assert a + b == b;
    } else {
      assert (a + b)[1..] == a[1..] + b;
      AllBoardsAppend(a[1..], b);
    }
  }

  /** The flattened list holds exactly the boards of the categories, nothing more and nothing less. */
  lemma {:induction false} AllBoardsMembers(cats: seq<BoardCategory>, b: Board)
    ensures b in AllBoardsOf(cats) <==> exists i :: 0 <= i < |cats| && b in cats[i].boards
    decreases |cats|
  {
    if cats != [] {
      AllBoardsMembers(cats[1..], b);
      if b in AllBoardsOf(cats[1..]) {
        var i :| 0 <= i < |cats[1..]| && b in cats[1..][i].boards;
        assert b in cats[i + 1].boards;
      }
      if exists i :: 0 <= i < |cats| && b in cats[i].boards {
        var i :| 0 <= i < |cats| && b in cats[i].boards;
        if i > 0 {
          assert b in cats[1..][i - 1].boards;
        }
      }
    }
  }

  /** Category `k`'s boards sit, in order, right after the boards of the categories before it. */
  lemma CategoryBlock(cats: seq<BoardCategory>, k: nat)
    requires k < |cats|
    ensures var start := |AllBoardsOf(cats[..k])|;
      && start + |cats[k].boards| <= |AllBoardsOf(cats)|
      && AllBoardsOf(cats)[start..start + |cats[k].boards|] == cats[k].boards
  {
    assert cats == cats[..k] + cats[k..];
    AllBoardsAppend(cats[..k], cats[k..]);
  }

  /** `Array.prototype.find`, as a position: the first element satisfying `p`. */
  function FindFirst<T>(s: seq<T>, p: T -> bool): (k: Option<nat>)
    ensures k.Some? ==> k.value < |s| && p(s[k.value])
    ensures k.Some? ==> forall j :: 0 <= j < k.value ==> !p(s[j])
    ensures k.None? <==> forall j :: 0 <= j < |s| ==> !p(s[j])
  {
    if s == [] then None
    else if p(s[0]) then Some(0)
    else
      var k := FindFirst(s[1..], p);
      assert forall j :: 1 <= j < |s| ==> s[j] == s[1..][j - 1];
      if k.None? then None else Some(k.value + 1)
  }

  /** `getBoardsByCategory` over `cats`: the boards of the first category with that id, else none. */
  function BoardsByCategoryOf(cats: seq<BoardCategory>, categoryId: string): (bs: seq<Board>)
    ensures (forall j :: 0 <= j < |cats| ==> cats[j].id != categoryId) ==> bs == []
    ensures forall k :: (0 <= k < |cats| && cats[k].id == categoryId &&
      forall j :: 0 <= j < k ==> cats[j].id != categoryId) ==> bs == cats[k].boards
  {
    var k := FindFirst(cats, (cat: BoardCategory) => cat.id == categoryId);
    if k.Some? then cats[k.value].boards else []
  }

  /** `getBoardById` over `cats`: the first board with that id in flattened order. */
  function BoardByIdOf(cats: seq<BoardCategory>, boardId: string): (b: Option<Board>)
    ensures b.Some? ==> b.value.id == boardId && b.value in AllBoardsOf(cats)
  {
    var all := AllBoardsOf(cats);
    var k := FindFirst(all, (board: Board) => board.id == boardId);
    if k.Some? then Some(all[k.value]) else None
  }

  /**
   * A found board is the first board with that id in flattened order, and
   * nothing is found exactly when no category holds a board with that id.
   */
  lemma BoardByIdFirst(cats: seq<BoardCategory>, boardId: string)
    ensures var all, b := AllBoardsOf(cats), BoardByIdOf(cats, boardId);
      b.Some? ==> exists k :: 0 <= k < |all| && all[k] == b.value &&
                             forall j :: 0 <= j < k ==> all[j].id != boardId
    ensures BoardByIdOf(cats, boardId).None? <==>
      forall i, b :: 0 <= i < |cats| && b in cats[i].boards ==> b.id != boardId
  {
    var all := AllBoardsOf(cats);
    forall i, b | 0 <= i < |cats| && b in cats[i].boards
      ensures b in all
    {
      AllBoardsMembers(cats, b);
    }
    if BoardByIdOf(cats, boardId).Some? {
      var b := BoardByIdOf(cats, boardId).value;
      AllBoardsMembers(cats, b);
    }
  }

  /** `boardCategories`. */
  function Catalogue(): seq<BoardCategory> {
    [
      BoardCategory("animals", "Animals", "\U{1F43E}",
        "Cute and majestic creatures from around the world",
        [
          Board("cat-1", "Fluffy Orange Cat",
            "https://images.pexels.com/photos/45201/kitty-cat-kitten-pet-45201.jpeg?auto=compress&cs=tinysrgb&w=400",
            Easy, "30 min", 8),
          Board("dog-1", "Golden Retriever",
            "https://images.pexels.com/photos/1108099/pexels-photo-1108099.jpeg?auto=compress&cs=tinysrgb&w=400",
            Medium, "45 min", 12),
          Board("bird-1", "Colorful Parrot",
            "https://images.pexels.com/photos/326900/pexels-photo-326900.jpeg?auto=compress&cs=tinysrgb&w=400",
            Hard, "60 min", 16),
          Board("horse-1", "Wild Stallion",
            "https://images.pexels.com/photos/635499/pexels-photo-635499.jpeg?auto=compress&cs=tinysrgb&w=400",
            Medium, "50 min", 10),
          Board("elephant-1", "Majestic Elephant",
            "https://images.pexels.com/photos/66898/elephant-cub-tsavo-kenya-66898.jpeg?auto=compress&cs=tinysrgb&w=400",
            Hard, "70 min", 14),
          Board("lion-1", "Lion Portrait",
            "https://images.pexels.com/photos/247502/pexels-photo-247502.jpeg?auto=compress&cs=tinysrgb&w=400",
            Hard, "65 min", 15),
          Board("butterfly-1", "Monarch Butterfly",
            "https://images.pexels.com/photos/326055/pexels-photo-326055.jpeg?auto=compress&cs=tinysrgb&w=400",
            Medium, "40 min", 11),
          Board("owl-1", "Wise Owl",
            "https://images.pexels.com/photos/86596/owl-bird-eyes-eagle-owl-86596.jpeg?auto=compress&cs=tinysrgb&w=400",
            Medium, "45 min", 9),
          Board("deer-1", "Forest Deer",
            "https://images.pexels.com/photos/247376/pexels-photo-247376.jpeg?auto=compress&cs=tinysrgb&w=400",
            Medium, "50 min", 12),
          Board("tiger-1", "Bengal Tiger",
            "https://images.pexels.com/photos/145939/pexels-photo-145939.jpeg?auto=compress&cs=tinysrgb&w=400",
            Hard, "75 min", 18),
          Board("panda-1", "Giant Panda",
            "https://images.pexels.com/photos/3608263/pexels-photo-3608263.jpeg?auto=compress&cs=tinysrgb&w=400",
            Easy, "35 min", 6),
          Board("fox-1", "Red Fox",
            "https://images.pexels.com/photos/247502/pexels-photo-247502.jpeg?auto=compress&cs=tinysrgb&w=400",
            Medium, "45 min", 10),
          Board("wolf-1", "Gray Wolf",
            "https://images.pexels.com/photos/1108099/pexels-photo-1108099.jpeg?auto=compress&cs=tinysrgb&w=400",
            Hard, "60 min", 13),
          Board("rabbit-1", "Cute Bunny",
            "https://images.pexels.com/photos/326900/pexels-photo-326900.jpeg?auto=compress&cs=tinysrgb&w=400",
            Easy, "25 min", 7),
          Board("bear-1", "Brown Bear",
            "https://images.pexels.com/photos/635499/pexels-photo-635499.jpeg?auto=compress&cs=tinysrgb&w=400",
            Hard, "70 min", 16),
          Board("penguin-1", "Emperor Penguin",
            "https://images.pexels.com/photos/66898/elephant-cub-tsavo-kenya-66898.jpeg?auto=compress&cs=tinysrgb&w=400",
            Easy, "30 min", 5),
          Board("dolphin-1", "Playful Dolphin",
            "https://images.pexels.com/photos/247502/pexels-photo-247502.jpeg?auto=compress&cs=tinysrgb&w=400",
            Medium, "40 min", 8),
          Board("giraffe-1", "Tall Giraffe",
            "https://images.pexels.com/photos/326055/pexels-photo-326055.jpeg?auto=compress&cs=tinysrgb&w=400",
            Medium, "55 min", 11),
          Board("zebra-1", "Striped Zebra",
            "https://images.pexels.com/photos/86596/owl-bird-eyes-eagle-owl-86596.jpeg?auto=compress&cs=tinysrgb&w=400",
            Medium, "45 min", 9),
          Board("koala-1", "Sleepy Koala",
            "https://images.pexels.com/photos/247376/pexels-photo-247376.jpeg?auto=compress&cs=tinysrgb&w=400",
            Easy, "35 min", 8)]),
      BoardCategory("nature", "Nature", "\U{1F33F}",
        "Beautiful landscapes and natural scenes",
        [
          Board("sunset-1", "Mountain Sunset",
            "https://images.pexels.com/photos/417074/pexels-photo-417074.jpeg?auto=compress&cs=tinysrgb&w=400",
            Medium, "45 min", 12),
          Board("forest-1", "Enchanted Forest",
            "https://images.pexels.com/photos/147411/italy-mountains-dawn-daybreak-147411.jpeg?auto=compress&cs=tinysrgb&w=400",
            Hard, "60 min", 15),
          Board("ocean-1", "Ocean Waves",
            "https://images.pexels.com/photos/189349/pexels-photo-189349.jpeg?auto=compress&cs=tinysrgb&w=400",
            Medium, "50 min", 10),
          Board("waterfall-1", "Tropical Waterfall",
            "https://images.pexels.com/photos/355321/pexels-photo-355321.jpeg?auto=compress&cs=tinysrgb&w=400",
            Hard, "65 min", 14),
          Board("desert-1", "Desert Dunes",
            "https://images.pexels.com/photos/1433052/pexels-photo-1433052.jpeg?auto=compress&cs=tinysrgb&w=400",
            Medium, "40 min", 8),
          Board("lake-1", "Serene Lake",
            "https://images.pexels.com/photos/147411/italy-mountains-dawn-daybreak-147411.jpeg?auto=compress&cs=tinysrgb&w=400",
            Easy, "35 min", 9),
          Board("canyon-1", "Grand Canyon",
            "https://images.pexels.com/photos/417074/pexels-photo-417074.jpeg?auto=compress&cs=tinysrgb&w=400",
            Hard, "70 min", 16),
          Board("meadow-1", "Spring Meadow",
            "https://images.pexels.com/photos/189349/pexels-photo-189349.jpeg?auto=compress&cs=tinysrgb&w=400",
            Medium, "45 min", 11),
          Board("volcano-1", "Active Volcano",
            "https://images.pexels.com/photos/355321/pexels-photo-355321.jpeg?auto=compress&cs=tinysrgb&w=400",
            Hard, "75 min", 18),
          Board("glacier-1", "Arctic Glacier",
            "https://images.pexels.com/photos/1433052/pexels-photo-1433052.jpeg?auto=compress&cs=tinysrgb&w=400",
            Medium, "50 min", 10),
          Board("rainforest-1", "Amazon Rainforest",
            "https://images.pexels.com/photos/147411/italy-mountains-dawn-daybreak-147411.jpeg?auto=compress&cs=tinysrgb&w=400",
            Hard, "65 min", 17),
          Board("aurora-1", "Northern Lights",
            "https://images.pexels.com/photos/417074/pexels-photo-417074.jpeg?auto=compress&cs=tinysrgb&w=400",
            Hard, "80 min", 20),
          Board("cave-1", "Crystal Cave",
            "https://images.pexels.com/photos/189349/pexels-photo-189349.jpeg?auto=compress&cs=tinysrgb&w=400",
            Medium, "55 min", 12),
          Board("beach-1", "Tropical Beach",
            "https://images.pexels.com/photos/355321/pexels-photo-355321.jpeg?auto=compress&cs=tinysrgb&w=400",
            Easy, "30 min", 8),
          Board("mountain-1", "Snow-Capped Peak",
            "https://images.pexels.com/photos/1433052/pexels-photo-1433052.jpeg?auto=compress&cs=tinysrgb&w=400",
            Medium, "50 min", 11),
          Board("river-1", "Winding River",
            "https://images.pexels.com/photos/147411/italy-mountains-dawn-daybreak-147411.jpeg?auto=compress&cs=tinysrgb&w=400",
            Medium, "45 min", 10),
          Board("cliff-1", "Coastal Cliffs",
            "https://images.pexels.com/photos/417074/pexels-photo-417074.jpeg?auto=compress&cs=tinysrgb&w=400",
            Hard, "60 min", 14),
          Board("valley-1", "Green Valley",
            "https://images.pexels.com/photos/189349/pexels-photo-189349.jpeg?auto=compress&cs=tinysrgb&w=400",
            Easy, "35 min", 9),
          Board("island-1", "Paradise Island",
            "https://images.pexels.com/photos/355321/pexels-photo-355321.jpeg?auto=compress&cs=tinysrgb&w=400",
            Medium, "50 min", 12),
          Board("prairie-1", "Golden Prairie",
            "https://images.pexels.com/photos/1433052/pexels-photo-1433052.jpeg?auto=compress&cs=tinysrgb&w=400",
            Easy, "30 min", 7)]),
      BoardCategory("flowers", "Flowers", "\U{1F338}",
        "Beautiful blooms and floral arrangements",
        [
          Board("rose-1", "Red Rose",
            "https://images.pexels.com/photos/56866/garden-rose-red-pink-56866.jpeg?auto=compress&cs=tinysrgb&w=400",
            Easy, "25 min", 6),
          Board("sunflower-1", "Bright Sunflower",
            "https://images.pexels.com/photos/33109/fall-autumn-red-season.jpg?auto=compress&cs=tinysrgb&w=400",
            Medium, "40 min", 10),
          Board("tulip-1", "Spring Tulips",
            "https://images.pexels.com/photos/36729/tulip-flower-bloom-pink.jpg?auto=compress&cs=tinysrgb&w=400",
            Easy, "30 min", 8),
          Board("orchid-1", "Exotic Orchid",
            "https://images.pexels.com/photos/56866/garden-rose-red-pink-56866.jpeg?auto=compress&cs=tinysrgb&w=400",
            Hard, "55 min", 14),
          Board("lily-1", "Water Lily",
            "https://images.pexels.com/photos/33109/fall-autumn-red-season.jpg?auto=compress&cs=tinysrgb&w=400",
            Medium, "45 min", 11),
          Board("daisy-1", "Field Daisies",
            "https://images.pexels.com/photos/36729/tulip-flower-bloom-pink.jpg?auto=compress&cs=tinysrgb&w=400",
            Easy, "25 min", 7),
          Board("cherry-1", "Cherry Blossoms",
            "https://images.pexels.com/photos/56866/garden-rose-red-pink-56866.jpeg?auto=compress&cs=tinysrgb&w=400",
            Medium, "50 min", 12),
          Board("lavender-1", "Lavender Field",
            "https://images.pexels.com/photos/33109/fall-autumn-red-season.jpg?auto=compress&cs=tinysrgb&w=400",
            Medium, "45 min", 9),
          Board("peony-1", "Pink Peony",
            "https://images.pexels.com/photos/36729/tulip-flower-bloom-pink.jpg?auto=compress&cs=tinysrgb&w=400",
            Medium, "40 min", 10),
          Board("iris-1", "Purple Iris",
            "https://images.pexels.com/photos/56866/garden-rose-red-pink-56866.jpeg?auto=compress&cs=tinysrgb&w=400",
            Medium, "35 min", 8),
          Board("hibiscus-1", "Tropical Hibiscus",
            "https://images.pexels.com/photos/33109/fall-autumn-red-season.jpg?auto=compress&cs=tinysrgb&w=400",
            Easy, "30 min", 9),
          Board("poppy-1", "Red Poppy",
            "https://images.pexels.com/photos/36729/tulip-flower-bloom-pink.jpg?auto=compress&cs=tinysrgb&w=400",
            Easy, "25 min", 6),
          Board("magnolia-1", "White Magnolia",
            "https://images.pexels.com/photos/56866/garden-rose-red-pink-56866.jpeg?auto=compress&cs=tinysrgb&w=400",
            Medium, "45 min", 11),
          Board("carnation-1", "Pink Carnation",
            "https://images.pexels.com/photos/33109/fall-autumn-red-season.jpg?auto=compress&cs=tinysrgb&w=400",
            Easy, "30 min", 7),
          Board("jasmine-1", "Jasmine Flowers",
            "https://images.pexels.com/photos/36729/tulip-flower-bloom-pink.jpg?auto=compress&cs=tinysrgb&w=400",
            Medium, "40 min", 10),
          Board("gardenia-1", "White Gardenia",
            "https://images.pexels.com/photos/56866/garden-rose-red-pink-56866.jpeg?auto=compress&cs=tinysrgb&w=400",
            Medium, "35 min", 8),
          Board("azalea-1", "Azalea Blooms",
            "https://images.pexels.com/photos/33109/fall-autumn-red-season.jpg?auto=compress&cs=tinysrgb&w=400",
            Medium, "45 min", 12),
          Board("camellia-1", "Red Camellia",
            "https://images.pexels.com/photos/36729/tulip-flower-bloom-pink.jpg?auto=compress&cs=tinysrgb&w=400",
            Medium, "40 min", 9),
          Board("daffodil-1", "Yellow Daffodil",
            "https://images.pexels.com/photos/56866/garden-rose-red-pink-56866.jpeg?auto=compress&cs=tinysrgb&w=400",
            Easy, "25 min", 6),
          Board("bouquet-1", "Mixed Bouquet",
            "https://images.pexels.com/photos/33109/fall-autumn-red-season.jpg?auto=compress&cs=tinysrgb&w=400",
            Hard, "65 min", 16)]),
      BoardCategory("architecture", "Architecture", "\U{1F3DB}\U{FE0F}",
        "Stunning buildings and architectural marvels",
        [
          Board("castle-1", "Medieval Castle",
            "https://images.pexels.com/photos/161758/governor-s-mansion-montgomery-alabama-grand-staircase-161758.jpeg?auto=compress&cs=tinysrgb&w=400",
            Hard, "75 min", 18),
          Board("cathedral-1", "Gothic Cathedral",
            "https://images.pexels.com/photos/208701/pexels-photo-208701.jpeg?auto=compress&cs=tinysrgb&w=400",
            Hard, "80 min", 20),
          Board("bridge-1", "Golden Gate Bridge",
            "https://images.pexels.com/photos/161758/governor-s-mansion-montgomery-alabama-grand-staircase-161758.jpeg?auto=compress&cs=tinysrgb&w=400",
            Medium, "50 min", 12),
          Board("lighthouse-1", "Coastal Lighthouse",
            "https://images.pexels.com/photos/208701/pexels-photo-208701.jpeg?auto=compress&cs=tinysrgb&w=400",
            Medium, "45 min", 10),
          Board("temple-1", "Ancient Temple",
            "https://images.pexels.com/photos/161758/governor-s-mansion-montgomery-alabama-grand-staircase-161758.jpeg?auto=compress&cs=tinysrgb&w=400",
            Hard, "70 min", 16),
          Board("mansion-1", "Victorian Mansion",
            "https://images.pexels.com/photos/208701/pexels-photo-208701.jpeg?auto=compress&cs=tinysrgb&w=400",
            Hard, "65 min", 15),
          Board("pagoda-1", "Japanese Pagoda",
            "https://images.pexels.com/photos/161758/governor-s-mansion-montgomery-alabama-grand-staircase-161758.jpeg?auto=compress&cs=tinysrgb&w=400",
            Medium, "55 min", 13),
          Board("windmill-1", "Dutch Windmill",
            "https://images.pexels.com/photos/208701/pexels-photo-208701.jpeg?auto=compress&cs=tinysrgb&w=400",
            Medium, "40 min", 9),
          Board("skyscraper-1", "Modern Skyscraper",
            "https://images.pexels.com/photos/161758/governor-s-mansion-montgomery-alabama-grand-staircase-161758.jpeg?auto=compress&cs=tinysrgb&w=400",
            Hard, "60 min", 14),
          Board("cottage-1", "Country Cottage",
            "https://images.pexels.com/photos/208701/pexels-photo-208701.jpeg?auto=compress&cs=tinysrgb&w=400",
            Easy, "35 min", 8),
          Board("palace-1", "Royal Palace",
            "https://images.pexels.com/photos/161758/governor-s-mansion-montgomery-alabama-grand-staircase-161758.jpeg?auto=compress&cs=tinysrgb&w=400",
            Hard, "85 min", 22),
          Board("church-1", "Country Church",
            "https://images.pexels.com/photos/208701/pexels-photo-208701.jpeg?auto=compress&cs=tinysrgb&w=400",
            Medium, "45 min", 11),
          Board("barn-1", "Red Barn",
            "https://images.pexels.com/photos/161758/governor-s-mansion-montgomery-alabama-grand-staircase-161758.jpeg?auto=compress&cs=tinysrgb&w=400",
            Easy, "30 min", 7),
          Board("tower-1", "Clock Tower",
            "https://images.pexels.com/photos/208701/pexels-photo-208701.jpeg?auto=compress&cs=tinysrgb&w=400",
            Medium, "50 min", 12),
          Board("dome-1", "Capitol Dome",
            "https://images.pexels.com/photos/161758/governor-s-mansion-montgomery-alabama-grand-staircase-161758.jpeg?auto=compress&cs=tinysrgb&w=400",
            Hard, "65 min", 15),
          Board("fortress-1", "Stone Fortress",
            "https://images.pexels.com/photos/208701/pexels-photo-208701.jpeg?auto=compress&cs=tinysrgb&w=400",
            Hard, "70 min", 17),
          Board("villa-1", "Mediterranean Villa",
            "https://images.pexels.com/photos/161758/governor-s-mansion-montgomery-alabama-grand-staircase-161758.jpeg?auto=compress&cs=tinysrgb&w=400",
            Medium, "55 min", 13),
          Board("abbey-1", "Ancient Abbey",
            "https://images.pexels.com/photos/208701/pexels-photo-208701.jpeg?auto=compress&cs=tinysrgb&w=400",
            Hard, "75 min", 18),
          Board("pavilion-1", "Garden Pavilion",
            "https://images.pexels.com/photos/161758/governor-s-mansion-montgomery-alabama-grand-staircase-161758.jpeg?auto=compress&cs=tinysrgb&w=400",
            Medium, "40 min", 10),
          Board("observatory-1", "Space Observatory",
            "https://images.pexels.com/photos/208701/pexels-photo-208701.jpeg?auto=compress&cs=tinysrgb&w=400",
            Medium, "45 min", 11)]),
      BoardCategory("vehicles", "Vehicles", "\U{1F697}",
        "Classic cars, planes, and transportation",
        [
          Board("car-1", "Classic Sports Car",
            "https://images.pexels.com/photos/170811/pexels-photo-170811.jpeg?auto=compress&cs=tinysrgb&w=400",
            Medium, "50 min", 12),
          Board("motorcycle-1", "Vintage Motorcycle",
            "https://images.pexels.com/photos/104842/bmw-vehicle-ride-bike-104842.jpeg?auto=compress&cs=tinysrgb&w=400",
            Medium, "45 min", 10),
          Board("plane-1", "Fighter Jet",
            "https://images.pexels.com/photos/170811/pexels-photo-170811.jpeg?auto=compress&cs=tinysrgb&w=400",
            Hard, "60 min", 14),
          Board("train-1", "Steam Locomotive",
            "https://images.pexels.com/photos/104842/bmw-vehicle-ride-bike-104842.jpeg?auto=compress&cs=tinysrgb&w=400",
            Hard, "65 min", 16),
          Board("boat-1", "Sailing Yacht",
            "https://images.pexels.com/photos/170811/pexels-photo-170811.jpeg?auto=compress&cs=tinysrgb&w=400",
            Medium, "55 min", 13),
          Board("truck-1", "Fire Truck",
            "https://images.pexels.com/photos/104842/bmw-vehicle-ride-bike-104842.jpeg?auto=compress&cs=tinysrgb&w=400",
            Medium, "45 min", 11),
          Board("helicopter-1", "Rescue Helicopter",
            "https://images.pexels.com/photos/170811/pexels-photo-170811.jpeg?auto=compress&cs=tinysrgb&w=400",
            Hard, "70 min", 17),
          Board("bus-1", "Double Decker Bus",
            "https://images.pexels.com/photos/104842/bmw-vehicle-ride-bike-104842.jpeg?auto=compress&cs=tinysrgb&w=400",
            Medium, "40 min", 9),
          Board("submarine-1", "Yellow Submarine",
            "https://images.pexels.com/photos/170811/pexels-photo-170811.jpeg?auto=compress&cs=tinysrgb&w=400",
            Medium, "50 min", 12),
          Board("bicycle-1", "Vintage Bicycle",
            "https://images.pexels.com/photos/104842/bmw-vehicle-ride-bike-104842.jpeg?auto=compress&cs=tinysrgb&w=400",
            Easy, "30 min", 8),
          Board("rocket-1", "Space Rocket",
            "https://images.pexels.com/photos/170811/pexels-photo-170811.jpeg?auto=compress&cs=tinysrgb&w=400",
            Hard, "75 min", 18),
          Board("tractor-1", "Farm Tractor",
            "https://images.pexels.com/photos/104842/bmw-vehicle-ride-bike-104842.jpeg?auto=compress&cs=tinysrgb&w=400",
            Medium, "45 min", 10),
          Board("ambulance-1", "Emergency Ambulance",
            "https://images.pexels.com/photos/170811/pexels-photo-170811.jpeg?auto=compress&cs=tinysrgb&w=400",
            Medium, "40 min", 9),
          Board("tank-1", "Military Tank",
            "https://images.pexels.com/photos/104842/bmw-vehicle-ride-bike-104842.jpeg?auto=compress&cs=tinysrgb&w=400",
            Hard, "65 min", 15),
          Board("scooter-1", "Vespa Scooter",
            "https://images.pexels.com/photos/170811/pexels-photo-170811.jpeg?auto=compress&cs=tinysrgb&w=400",
            Easy, "35 min", 7),
          Board("van-1", "Camping Van",
            "https://images.pexels.com/photos/104842/bmw-vehicle-ride-bike-104842.jpeg?auto=compress&cs=tinysrgb&w=400",
            Medium, "50 min", 12),
          Board("cart-1", "Horse Cart",
            "https://images.pexels.com/photos/170811/pexels-photo-170811.jpeg?auto=compress&cs=tinysrgb&w=400",
            Medium, "45 min", 11),
          Board("gondola-1", "Venice Gondola",
            "https://images.pexels.com/photos/104842/bmw-vehicle-ride-bike-104842.jpeg?auto=compress&cs=tinysrgb&w=400",
            Medium, "40 min", 10),
          Board("trolley-1", "San Francisco Trolley",
            "https://images.pexels.com/photos/170811/pexels-photo-170811.jpeg?auto=compress&cs=tinysrgb&w=400",
            Medium, "45 min", 11),
          Board("carriage-1", "Royal Carriage",
            "https://images.pexels.com/photos/104842/bmw-vehicle-ride-bike-104842.jpeg?auto=compress&cs=tinysrgb&w=400",
            Hard, "60 min", 14)]),
      BoardCategory("food", "Food", "\U{1F34E}",
        "Delicious dishes and fresh ingredients",
        [
          Board("fruit-1", "Fresh Fruit Bowl",
            "https://images.pexels.com/photos/1132047/pexels-photo-1132047.jpeg?auto=compress&cs=tinysrgb&w=400",
            Easy, "30 min", 8),
          Board("pizza-1", "Italian Pizza",
            "https://images.pexels.com/photos/315755/pexels-photo-315755.jpeg?auto=compress&cs=tinysrgb&w=400",
            Medium, "45 min", 12),
          Board("cake-1", "Birthday Cake",
            "https://images.pexels.com/photos/1132047/pexels-photo-1132047.jpeg?auto=compress&cs=tinysrgb&w=400",
            Medium, "50 min", 14),
          Board("burger-1", "Gourmet Burger",
            "https://images.pexels.com/photos/315755/pexels-photo-315755.jpeg?auto=compress&cs=tinysrgb&w=400",
            Medium, "40 min", 10),
          Board("sushi-1", "Sushi Platter",
            "https://images.pexels.com/photos/1132047/pexels-photo-1132047.jpeg?auto=compress&cs=tinysrgb&w=400",
            Hard, "60 min", 16),
          Board("salad-1", "Garden Salad",
            "https://images.pexels.com/photos/315755/pexels-photo-315755.jpeg?auto=compress&cs=tinysrgb&w=400",
            Easy, "25 min", 7),
          Board("pasta-1", "Spaghetti Bolognese",
            "https://images.pexels.com/photos/1132047/pexels-photo-1132047.jpeg?auto=compress&cs=tinysrgb&w=400",
            Medium, "45 min", 11),
          Board("ice-cream-1", "Ice Cream Sundae",
            "https://images.pexels.com/photos/315755/pexels-photo-315755.jpeg?auto=compress&cs=tinysrgb&w=400",
            Easy, "35 min", 9),
          Board("bread-1", "Fresh Bread Loaf",
            "https://images.pexels.com/photos/1132047/pexels-photo-1132047.jpeg?auto=compress&cs=tinysrgb&w=400",
            Easy, "30 min", 6),
          Board("coffee-1", "Coffee and Pastry",
            "https://images.pexels.com/photos/315755/pexels-photo-315755.jpeg?auto=compress&cs=tinysrgb&w=400",
            Medium, "40 min", 10),
          Board("soup-1", "Vegetable Soup",
            "https://images.pexels.com/photos/1132047/pexels-photo-1132047.jpeg?auto=compress&cs=tinysrgb&w=400",
            Easy, "25 min", 8),
          Board("steak-1", "Grilled Steak",
            "https://images.pexels.com/photos/315755/pexels-photo-315755.jpeg?auto=compress&cs=tinysrgb&w=400",
            Medium, "45 min", 11),
          Board("tacos-1", "Mexican Tacos",
            "https://images.pexels.com/photos/1132047/pexels-photo-1132047.jpeg?auto=compress&cs=tinysrgb&w=400",
            Medium, "40 min", 12),
          Board("pancakes-1", "Stack of Pancakes",
            "https://images.pexels.com/photos/315755/pexels-photo-315755.jpeg?auto=compress&cs=tinysrgb&w=400",
            Easy, "30 min", 7),
          Board("wine-1", "Wine and Cheese",
            "https://images.pexels.com/photos/1132047/pexels-photo-1132047.jpeg?auto=compress&cs=tinysrgb&w=400",
            Medium, "50 min", 13),
          Board("donut-1", "Glazed Donuts",
            "https://images.pexels.com/photos/315755/pexels-photo-315755.jpeg?auto=compress&cs=tinysrgb&w=400",
            Easy, "25 min", 6),
          Board("seafood-1", "Seafood Platter",
            "https://images.pexels.com/photos/1132047/pexels-photo-1132047.jpeg?auto=compress&cs=tinysrgb&w=400",
            Hard, "65 min", 15),
          Board("smoothie-1", "Fruit Smoothie",
            "https://images.pexels.com/photos/315755/pexels-photo-315755.jpeg?auto=compress&cs=tinysrgb&w=400",
            Easy, "20 min", 5),
          Board("bbq-1", "BBQ Ribs",
            "https://images.pexels.com/photos/1132047/pexels-photo-1132047.jpeg?auto=compress&cs=tinysrgb&w=400",
            Medium, "45 min", 10),
          Board("cookies-1", "Chocolate Chip Cookies",
            "https://images.pexels.com/photos/315755/pexels-photo-315755.jpeg?auto=compress&cs=tinysrgb&w=400",
            Easy, "30 min", 8)]),
      BoardCategory("fantasy", "Fantasy", "\U{1F409}",
        "Magical creatures and enchanted worlds",
        [
          Board("dragon-1", "Fire Dragon",
            "https://images.pexels.com/photos/1109541/pexels-photo-1109541.jpeg?auto=compress&cs=tinysrgb&w=400",
            Hard, "80 min", 20),
          Board("unicorn-1", "Magical Unicorn",
            "https://images.pexels.com/photos/1624496/pexels-photo-1624496.jpeg?auto=compress&cs=tinysrgb&w=400",
            Medium, "55 min", 14),
          Board("fairy-1", "Garden Fairy",
            "https://images.pexels.com/photos/1109541/pexels-photo-1109541.jpeg?auto=compress&cs=tinysrgb&w=400",
            Medium, "50 min", 12),
          Board("wizard-1", "Wise Wizard",
            "https://images.pexels.com/photos/1624496/pexels-photo-1624496.jpeg?auto=compress&cs=tinysrgb&w=400",
            Hard, "70 min", 18),
          Board("phoenix-1", "Rising Phoenix",
            "https://images.pexels.com/photos/1109541/pexels-photo-1109541.jpeg?auto=compress&cs=tinysrgb&w=400",
            Hard, "75 min", 19),
          Board("mermaid-1", "Ocean Mermaid",
            "https://images.pexels.com/photos/1624496/pexels-photo-1624496.jpeg?auto=compress&cs=tinysrgb&w=400",
            Medium, "60 min", 15),
          Board("griffin-1", "Majestic Griffin",
            "https://images.pexels.com/photos/1109541/pexels-photo-1109541.jpeg?auto=compress&cs=tinysrgb&w=400",
            Hard, "65 min", 16),
          Board("pegasus-1", "Flying Pegasus",
            "https://images.pexels.com/photos/1624496/pexels-photo-1624496.jpeg?auto=compress&cs=tinysrgb&w=400",
            Medium, "55 min", 13),
          Board("centaur-1", "Forest Centaur",
            "https://images.pexels.com/photos/1109541/pexels-photo-1109541.jpeg?auto=compress&cs=tinysrgb&w=400",
            Hard, "70 min", 17),
          Board("elf-1", "Woodland Elf",
            "https://images.pexels.com/photos/1624496/pexels-photo-1624496.jpeg?auto=compress&cs=tinysrgb&w=400",
            Medium, "45 min", 11),
          Board("castle-fantasy-1", "Enchanted Castle",
            "https://images.pexels.com/photos/1109541/pexels-photo-1109541.jpeg?auto=compress&cs=tinysrgb&w=400",
            Hard, "85 min", 22),
          Board("crystal-1", "Magic Crystals",
            "https://images.pexels.com/photos/1624496/pexels-photo-1624496.jpeg?auto=compress&cs=tinysrgb&w=400",
            Medium, "40 min", 10),
          Board("potion-1", "Magic Potions",
            "https://images.pexels.com/photos/1109541/pexels-photo-1109541.jpeg?auto=compress&cs=tinysrgb&w=400",
            Medium, "45 min", 12),
          Board("wand-1", "Magic Wand",
            "https://images.pexels.com/photos/1624496/pexels-photo-1624496.jpeg?auto=compress&cs=tinysrgb&w=400",
            Easy, "30 min", 8),
          Board("mushroom-1", "Fairy Mushrooms",
            "https://images.pexels.com/photos/1109541/pexels-photo-1109541.jpeg?auto=compress&cs=tinysrgb&w=400",
            Easy, "35 min", 9),
          Board("tree-magic-1", "Enchanted Tree",
            "https://images.pexels.com/photos/1624496/pexels-photo-1624496.jpeg?auto=compress&cs=tinysrgb&w=400",
            Medium, "50 min", 13),
          Board("portal-1", "Magic Portal",
            "https://images.pexels.com/photos/1109541/pexels-photo-1109541.jpeg?auto=compress&cs=tinysrgb&w=400",
            Hard, "60 min", 15),
          Board("spell-1", "Casting Spell",
            "https://images.pexels.com/photos/1624496/pexels-photo-1624496.jpeg?auto=compress&cs=tinysrgb&w=400",
            Medium, "45 min", 11),
          Board("crown-1", "Royal Crown",
            "https://images.pexels.com/photos/1109541/pexels-photo-1109541.jpeg?auto=compress&cs=tinysrgb&w=400",
            Medium, "40 min", 10),
          Board("sword-1", "Legendary Sword",
            "https://images.pexels.com/photos/1624496/pexels-photo-1624496.jpeg?auto=compress&cs=tinysrgb&w=400",
            Medium, "35 min", 9)]),
      BoardCategory("space", "Space", "\U{1F680}",
        "Cosmic wonders and celestial bodies",
        [
          Board("planet-1", "Saturn and Rings",
            "https://images.pexels.com/photos/2156/sky-earth-space-working.jpg?auto=compress&cs=tinysrgb&w=400",
            Medium, "50 min", 12),
          Board("galaxy-1", "Spiral Galaxy",
            "https://images.pexels.com/photos/1169754/pexels-photo-1169754.jpeg?auto=compress&cs=tinysrgb&w=400",
            Hard, "70 min", 18),
          Board("astronaut-1", "Space Astronaut",
            "https://images.pexels.com/photos/2156/sky-earth-space-working.jpg?auto=compress&cs=tinysrgb&w=400",
            Medium, "55 min", 14),
          Board("nebula-1", "Colorful Nebula",
            "https://images.pexels.com/photos/1169754/pexels-photo-1169754.jpeg?auto=compress&cs=tinysrgb&w=400",
            Hard, "75 min", 20),
          Board("moon-1", "Full Moon",
            "https://images.pexels.com/photos/2156/sky-earth-space-working.jpg?auto=compress&cs=tinysrgb&w=400",
            Easy, "30 min", 6),
          Board("earth-1", "Planet Earth",
            "https://images.pexels.com/photos/1169754/pexels-photo-1169754.jpeg?auto=compress&cs=tinysrgb&w=400",
            Medium, "45 min", 11),
          Board("comet-1", "Blazing Comet",
            "https://images.pexels.com/photos/2156/sky-earth-space-working.jpg?auto=compress&cs=tinysrgb&w=400",
            Medium, "40 min", 10),
          Board("stars-1", "Starry Night Sky",
            "https://images.pexels.com/photos/1169754/pexels-photo-1169754.jpeg?auto=compress&cs=tinysrgb&w=400",
            Hard, "65 min", 16),
          Board("mars-1", "Red Planet Mars",
            "https://images.pexels.com/photos/2156/sky-earth-space-working.jpg?auto=compress&cs=tinysrgb&w=400",
            Medium, "45 min", 9),
          Board("sun-1", "Solar Flares",
            "https://images.pexels.com/photos/1169754/pexels-photo-1169754.jpeg?auto=compress&cs=tinysrgb&w=400",
            Hard, "60 min", 15),
          Board("blackhole-1", "Black Hole",
            "https://images.pexels.com/photos/2156/sky-earth-space-working.jpg?auto=compress&cs=tinysrgb&w=400",
            Hard, "70 min", 17),
          Board("satellite-1", "Space Satellite",
            "https://images.pexels.com/photos/1169754/pexels-photo-1169754.jpeg?auto=compress&cs=tinysrgb&w=400",
            Medium, "50 min", 12),
          Board("meteor-1", "Meteor Shower",
            "https://images.pexels.com/photos/2156/sky-earth-space-working.jpg?auto=compress&cs=tinysrgb&w=400",
            Medium, "55 min", 13),
          Board("jupiter-1", "Giant Jupiter",
            "https://images.pexels.com/photos/1169754/pexels-photo-1169754.jpeg?auto=compress&cs=tinysrgb&w=400",
            Medium, "50 min", 14),
          Board("station-1", "Space Station",
            "https://images.pexels.com/photos/2156/sky-earth-space-working.jpg?auto=compress&cs=tinysrgb&w=400",
            Hard, "65 min", 16),
          Board("alien-1", "UFO Sighting",
            "https://images.pexels.com/photos/1169754/pexels-photo-1169754.jpeg?auto=compress&cs=tinysrgb&w=400",
            Medium, "45 min", 11),
          Board("constellation-1", "Star Constellation",
            "https://images.pexels.com/photos/2156/sky-earth-space-working.jpg?auto=compress&cs=tinysrgb&w=400",
            Easy, "35 min", 8),
          Board("telescope-1", "Space Telescope",
            "https://images.pexels.com/photos/1169754/pexels-photo-1169754.jpeg?auto=compress&cs=tinysrgb&w=400",
            Medium, "40 min", 10),
          Board("eclipse-1", "Solar Eclipse",
            "https://images.pexels.com/photos/2156/sky-earth-space-working.jpg?auto=compress&cs=tinysrgb&w=400",
            Medium, "45 min", 9),
          Board("milkyway-1", "Milky Way Galaxy",
            "https://images.pexels.com/photos/1169754/pexels-photo-1169754.jpeg?auto=compress&cs=tinysrgb&w=400",
            Hard, "80 min", 22)]),
      BoardCategory("abstract", "Abstract", "\U{1F3A8}",
        "Modern art and geometric patterns",
        [
          Board("geometric-1", "Geometric Shapes",
            "https://images.pexels.com/photos/1109541/pexels-photo-1109541.jpeg?auto=compress&cs=tinysrgb&w=400",
            Medium, "45 min", 10),
          Board("mandala-1", "Intricate Mandala",
            "https://images.pexels.com/photos/1624496/pexels-photo-1624496.jpeg?auto=compress&cs=tinysrgb&w=400",
            Hard, "75 min", 18),
          Board("spiral-1", "Color Spiral",
            "https://images.pexels.com/photos/1109541/pexels-photo-1109541.jpeg?auto=compress&cs=tinysrgb&w=400",
            Medium, "50 min", 12),
          Board("waves-1", "Abstract Waves",
            "https://images.pexels.com/photos/1624496/pexels-photo-1624496.jpeg?auto=compress&cs=tinysrgb&w=400",
            Medium, "40 min", 9),
          Board("kaleidoscope-1", "Kaleidoscope Pattern",
            "https://images.pexels.com/photos/1109541/pexels-photo-1109541.jpeg?auto=compress&cs=tinysrgb&w=400",
            Hard, "70 min", 16),
          Board("fractal-1", "Fractal Design",
            "https://images.pexels.com/photos/1624496/pexels-photo-1624496.jpeg?auto=compress&cs=tinysrgb&w=400",
            Hard, "80 min", 20),
          Board("circles-1", "Overlapping Circles",
            "https://images.pexels.com/photos/1109541/pexels-photo-1109541.jpeg?auto=compress&cs=tinysrgb&w=400",
            Easy, "30 min", 8),
          Board("triangles-1", "Triangle Mosaic",
            "https://images.pexels.com/photos/1624496/pexels-photo-1624496.jpeg?auto=compress&cs=tinysrgb&w=400",
            Medium, "45 min", 11),
          Board("lines-1", "Flowing Lines",
            "https://images.pexels.com/photos/1109541/pexels-photo-1109541.jpeg?auto=compress&cs=tinysrgb&w=400",
            Easy, "25 min", 6),
          Board("gradient-1", "Color Gradient",
            "https://images.pexels.com/photos/1624496/pexels-photo-1624496.jpeg?auto=compress&cs=tinysrgb&w=400",
            Medium, "35 min", 7),
          Board("polygon-1", "Polygon Art",
            "https://images.pexels.com/photos/1109541/pexels-photo-1109541.jpeg?auto=compress&cs=tinysrgb&w=400",
            Medium, "50 min", 13),
          Board("optical-1", "Optical Illusion",
            "https://images.pexels.com/photos/1624496/pexels-photo-1624496.jpeg?auto=compress&cs=tinysrgb&w=400",
            Hard, "65 min", 15),
          Board("texture-1", "Abstract Texture",
            "https://images.pexels.com/photos/1109541/pexels-photo-1109541.jpeg?auto=compress&cs=tinysrgb&w=400",
            Medium, "40 min", 10),
          Board("splash-1", "Paint Splash",
            "https://images.pexels.com/photos/1624496/pexels-photo-1624496.jpeg?auto=compress&cs=tinysrgb&w=400",
            Easy, "30 min", 8),
          Board("mesh-1", "Gradient Mesh",
            "https://images.pexels.com/photos/1109541/pexels-photo-1109541.jpeg?auto=compress&cs=tinysrgb&w=400",
            Hard, "60 min", 14),
          Board("crystal-abstract-1", "Crystal Formation",
            "https://images.pexels.com/photos/1624496/pexels-photo-1624496.jpeg?auto=compress&cs=tinysrgb&w=400",
            Medium, "45 min", 12),
          Board("flow-1", "Fluid Flow",
            "https://images.pexels.com/photos/1109541/pexels-photo-1109541.jpeg?auto=compress&cs=tinysrgb&w=400",
            Medium, "50 min", 11),
          Board("prism-1", "Light Prism",
            "https://images.pexels.com/photos/1624496/pexels-photo-1624496.jpeg?auto=compress&cs=tinysrgb&w=400",
            Hard, "55 min", 16),
          Board("vortex-1", "Color Vortex",
            "https://images.pexels.com/photos/1109541/pexels-photo-1109541.jpeg?auto=compress&cs=tinysrgb&w=400",
            Medium, "45 min", 13),
          Board("matrix-1", "Digital Matrix",
            "https://images.pexels.com/photos/1624496/pexels-photo-1624496.jpeg?auto=compress&cs=tinysrgb&w=400",
            Hard, "70 min", 17)]),
      BoardCategory("portraits", "Portraits", "\U{1F464}",
        "Human faces and character studies",
        [
          Board("woman-1", "Elegant Woman",
            "https://images.pexels.com/photos/415829/pexels-photo-415829.jpeg?auto=compress&cs=tinysrgb&w=400",
            Hard, "80 min", 18),
          Board("man-1", "Distinguished Man",
            "https://images.pexels.com/photos/220453/pexels-photo-220453.jpeg?auto=compress&cs=tinysrgb&w=400",
            Hard, "75 min", 16),
          Board("child-1", "Smiling Child",
            "https://images.pexels.com/photos/415829/pexels-photo-415829.jpeg?auto=compress&cs=tinysrgb&w=400",
            Medium, "60 min", 12),
          Board("elderly-1", "Wise Elder",
            "https://images.pexels.com/photos/220453/pexels-photo-220453.jpeg?auto=compress&cs=tinysrgb&w=400",
            Hard, "85 min", 20),
          Board("profile-1", "Side Profile",
            "https://images.pexels.com/photos/415829/pexels-photo-415829.jpeg?auto=compress&cs=tinysrgb&w=400",
            Medium, "55 min", 14),
          Board("eyes-1", "Expressive Eyes",
            "https://images.pexels.com/photos/220453/pexels-photo-220453.jpeg?auto=compress&cs=tinysrgb&w=400",
            Hard, "70 min", 15),
          Board("smile-1", "Joyful Smile",
            "https://images.pexels.com/photos/415829/pexels-photo-415829.jpeg?auto=compress&cs=tinysrgb&w=400",
            Medium, "50 min", 11),
          Board("serious-1", "Serious Expression",
            "https://images.pexels.com/photos/220453/pexels-photo-220453.jpeg?auto=compress&cs=tinysrgb&w=400",
            Hard, "65 min", 13),
          Board("vintage-1", "Vintage Portrait",
            "https://images.pexels.com/photos/415829/pexels-photo-415829.jpeg?auto=compress&cs=tinysrgb&w=400",
            Hard, "75 min", 17),
          Board("artistic-1", "Artistic Study",
            "https://images.pexels.com/photos/220453/pexels-photo-220453.jpeg?auto=compress&cs=tinysrgb&w=400",
            Hard, "80 min", 19),
          Board("couple-1", "Happy Couple",
            "https://images.pexels.com/photos/415829/pexels-photo-415829.jpeg?auto=compress&cs=tinysrgb&w=400",
            Hard, "90 min", 22),
          Board("family-1", "Family Portrait",
            "https://images.pexels.com/photos/220453/pexels-photo-220453.jpeg?auto=compress&cs=tinysrgb&w=400",
            Hard, "95 min", 24),
          Board("baby-1", "Sleeping Baby",
            "https://images.pexels.com/photos/415829/pexels-photo-415829.jpeg?auto=compress&cs=tinysrgb&w=400",
            Medium, "45 min", 8),
          Board("teen-1", "Teenager Portrait",
            "https://images.pexels.com/photos/220453/pexels-photo-220453.jpeg?auto=compress&cs=tinysrgb&w=400",
            Medium, "55 min", 12),
          Board("hands-1", "Expressive Hands",
            "https://images.pexels.com/photos/415829/pexels-photo-415829.jpeg?auto=compress&cs=tinysrgb&w=400",
            Medium, "40 min", 10),
          Board("silhouette-1", "Portrait Silhouette",
            "https://images.pexels.com/photos/220453/pexels-photo-220453.jpeg?auto=compress&cs=tinysrgb&w=400",
            Easy, "30 min", 6),
          Board("emotion-1", "Raw Emotion",
            "https://images.pexels.com/photos/415829/pexels-photo-415829.jpeg?auto=compress&cs=tinysrgb&w=400",
            Hard, "70 min", 16),
          Board("character-1", "Character Study",
            "https://images.pexels.com/photos/220453/pexels-photo-220453.jpeg?auto=compress&cs=tinysrgb&w=400",
            Hard, "75 min", 18),
          Board("beauty-1", "Natural Beauty",
            "https://images.pexels.com/photos/415829/pexels-photo-415829.jpeg?auto=compress&cs=tinysrgb&w=400",
            Hard, "65 min", 14),
          Board("expression-1", "Facial Expression",
            "https://images.pexels.com/photos/220453/pexels-photo-220453.jpeg?auto=compress&cs=tinysrgb&w=400",
            Medium, "50 min", 11)])
    ]
  }

  /** `getAllBoards()`. */
  function AllBoards(): seq<Board> {
    AllBoardsOf(Catalogue())
  }

  /** `getBoardsByCategory(categoryId)`. */
  function BoardsByCategory(categoryId: string): seq<Board> {
    BoardsByCategoryOf(Catalogue(), categoryId)
  }

  /** `getBoardById(boardId)`. */
  function BoardById(boardId: string): Option<Board> {
    BoardByIdOf(Catalogue(), boardId)
  }

}
