/**
 * The trip planning board: three columns of cards, and `move`, which drops a
 * card id from every column and appends the card to the target column.
 */
module TripPlanner {
  import opened Options
  import Folds

  datatype Card = Card(id: string, title: string)

  datatype Column = Ideas | Scheduled | Completed

  datatype Board = Board(ideas: seq<Card>, scheduled: seq<Card>, completed: seq<Card>) {
    function Get(c: Column): seq<Card> {
      match c
      case Ideas => ideas
      case Scheduled => scheduled
      case Completed => completed
    }

    function Put(c: Column, cards: seq<Card>): (b: Board)
      ensures b.Get(c) == cards
      ensures forall d :: d != c ==> b.Get(d) == Get(d)
    {
      match c
      case Ideas => this.(ideas := cards)
      case Scheduled => this.(scheduled := cards)
      case Completed => this.(completed := cards)
    }
  }

  /** `Object.keys(board)`: the order in which `move` visits the columns. */
  const ColumnOrder: seq<Column> := [Ideas, Scheduled, Completed]

  const InitialBoard := Board(
    [Card("1", "Quarterly meetup in Berlin"), Card("2", "Sales kickoff in NYC")],
    [Card("3", "Vendor visit in London")],
    [Card("4", "Team offsite in Lisbon")])

  function IdOf(c: Card): string { c.id }

  /** The cards of the given columns, one column after the other. */
  function CardsOf(b: Board, cols: seq<Column>): seq<Card> {
    if cols == [] then [] else CardsOf(b, cols[..|cols| - 1]) + b.Get(cols[|cols| - 1])
  }

  /** All cards of the board, in column order. */
  function AllCards(b: Board): seq<Card> {
    CardsOf(b, ColumnOrder)
  }

  lemma AllCardsIs(b: Board)
    ensures AllCards(b) == b.ideas + b.scheduled + b.completed
  {
    var c0, c1, c2 := ColumnOrder[..1], ColumnOrder[..2], ColumnOrder;
    assert c0[..0] == [] && c1[..1] == c0 && c2[..2] == c1;
    assert CardsOf(b, c0) == b.ideas;
    assert CardsOf(b, c1) == b.ideas + b.scheduled;
  }

  /**
   * The card the filter callback leaves in `moved` after visiting `cards`:
   * the last card with that id, or `prior` when there is none.
   */
  function LastMatch(cards: seq<Card>, id: string, prior: Option<Card>): Option<Card>
  {
    if cards == [] then prior
    else
      var last := cards[|cards| - 1];
      if last.id == id then Some(last) else LastMatch(cards[..|cards| - 1], id, prior)
  }

  /** Without a card of that id, `moved` keeps its earlier value. */
  lemma {:induction false} LastMatchNone(cards: seq<Card>, id: string, prior: Option<Card>)
    requires forall i :: 0 <= i < |cards| ==> cards[i].id != id
    ensures LastMatch(cards, id, prior) == prior
  {
    if cards != [] {
      LastMatchNone(cards[..|cards| - 1], id, prior);
    }
  }

  /** The index of the last card with the id, or -1 when there is none. */
  function LastIndex(cards: seq<Card>, id: string): (i: int)
    ensures -1 <= i < |cards|
    ensures i >= 0 ==> cards[i].id == id
    ensures forall j :: i < j < |cards| ==> cards[j].id != id
  {
    if cards == [] then -1
    else if cards[|cards| - 1].id == id then |cards| - 1
    else
      var init := cards[..|cards| - 1];
      assert forall j :: 0 <= j < |init| ==> init[j] == cards[j];
      LastIndex(init, id)
  }

  /** `moved` ends as the card at `LastIndex`, or keeps its earlier value when there is none. */
  lemma {:induction false} LastMatchIsLastIndex(cards: seq<Card>, id: string, prior: Option<Card>)
    ensures LastMatch(cards, id, prior) == if LastIndex(cards, id) < 0 then prior else Some(cards[LastIndex(cards, id)])
  {
    if cards != [] && cards[|cards| - 1].id != id {
      var init := cards[..|cards| - 1];
      LastMatchIsLastIndex(init, id, prior);
      if LastIndex(init, id) >= 0 {
        assert init[LastIndex(init, id)] == cards[LastIndex(init, id)];
      }
    }
  }

  /** With a card of that id at `k`, `moved` ends as the last such card, at `k` or later. */
  lemma LastMatchFound(cards: seq<Card>, id: string, prior: Option<Card>, k: int)
    requires 0 <= k < |cards| && cards[k].id == id
    ensures k <= LastIndex(cards, id)
    ensures LastMatch(cards, id, prior) == Some(cards[LastIndex(cards, id)])
  {
    LastMatchIsLastIndex(cards, id, prior);
  }

  lemma {:induction false} LastMatchAppend(a: seq<Card>, c: seq<Card>, id: string, prior: Option<Card>)
    ensures LastMatch(a + c, id, prior) == LastMatch(c, id, LastMatch(a, id, prior))
  {
    if c != [] {
      assert (a + c)[..|a + c| - 1] == a + c[..|c| - 1];
      LastMatchAppend(a, c[..|c| - 1], id, prior);
    } else {
      assert a + c == a;
    }
  }

  /** Every column with the id filtered out. */
  function Stripped(b: Board, id: string): Board {
    Board(Folds.Without(b.ideas, IdOf, id), Folds.Without(b.scheduled, IdOf, id), Folds.Without(b.completed, IdOf, id))
  }

  /** The board `move(id, to)` produces. */
  function Moved(b: Board, id: string, to: Column): Board {
    var moved := LastMatch(AllCards(b), id, None);
    var next := Stripped(b, id);
    if moved.Some? then next.Put(to, next.Get(to) + [moved.value]) else next
  }

  /**
   * The `filter` of one column: keeps the cards with another id, in order, and
   * records each card it drops in `moved`.
   */
  method FilterColumn(cards: seq<Card>, fromId: string, movedBefore: Option<Card>) returns (kept: seq<Card>, moved: Option<Card>)
    ensures kept == Folds.Without(cards, IdOf, fromId)
    ensures moved == LastMatch(cards, fromId, movedBefore)
  {
    kept, moved := [], movedBefore;
    var j := 0;
    while j < |cards|
      invariant 0 <= j <= |cards|
      invariant kept == Folds.Without(cards[..j], IdOf, fromId)
      invariant moved == LastMatch(cards[..j], fromId, movedBefore)
    {
      assert cards[..j + 1][..j] == cards[..j];
      var c := cards[j];
      if c.id == fromId {
        moved := Some(c);
      } else {
        kept := kept + [c];
      }
      j := j + 1;
    }
    assert cards[..|cards|] == cards;
  }

  /** `move(fromId, to)`: builds the next board column by column, then appends the moved card. */
  method Move(board: Board, fromId: string, to: Column) returns (next: Board)
    ensures next == Moved(board, fromId, to)
  {
    var moved: Option<Card> := None;
    next := Board([], [], []);
    var k := 0;
    while k < |ColumnOrder|
      invariant 0 <= k <= |ColumnOrder|
      invariant k >= 1 ==> next.ideas == Folds.Without(board.ideas, IdOf, fromId)
      invariant k >= 2 ==> next.scheduled == Folds.Without(board.scheduled, IdOf, fromId)
      invariant k >= 3 ==> next.completed == Folds.Without(board.completed, IdOf, fromId)
      invariant moved == LastMatch(CardsOf(board, ColumnOrder[..k]), fromId, None)
    {
      var col := ColumnOrder[k];
      assert ColumnOrder[..k + 1][..k] == ColumnOrder[..k];
      LastMatchAppend(CardsOf(board, ColumnOrder[..k]), board.Get(col), fromId, None);
      var kept;
      kept, moved := FilterColumn(board.Get(col), fromId, moved);
      next := next.Put(col, kept);
      k := k + 1;
    }
    assert ColumnOrder[..|ColumnOrder|] == ColumnOrder;
    assert moved == LastMatch(AllCards(board), fromId, None);
    assert next == Stripped(board, fromId);
    if moved.Some? {
      next := next.Put(to, next.Get(to) + [moved.value]);
    }
  }

  /** After a move, only the last card of `to` can carry the id. */
  lemma MoveClears(b: Board, id: string, to: Column)
    ensures forall d, i :: d != to && 0 <= i < |Moved(b, id, to).Get(d)| ==> Moved(b, id, to).Get(d)[i].id != id
    ensures var t := Moved(b, id, to).Get(to); forall i :: 0 <= i < |t| - 1 ==> t[i].id != id
  {
    var next := Stripped(b, id);
    StrippedClear(b, id, Ideas);
    StrippedClear(b, id, Scheduled);
    StrippedClear(b, id, Completed);
    var moved := LastMatch(AllCards(b), id, None);
    if moved.Some? {
      var t := next.Get(to) + [moved.value];
      assert Moved(b, id, to) == next.Put(to, t);
      forall i | 0 <= i < |t| - 1 ensures t[i].id != id {
        assert t[i] == next.Get(to)[i];
      }
    } else {
      assert Moved(b, id, to) == next;
    }
  }

  /** No column of the stripped board carries the id. */
  lemma StrippedClear(b: Board, id: string, d: Column)
    ensures forall i :: 0 <= i < |Stripped(b, id).Get(d)| ==> Stripped(b, id).Get(d)[i].id != id
  {
    Folds.WithoutMembers(b.Get(d), IdOf, id);
  }

  /** An id on no card leaves the board as it was. */
  lemma MoveAbsent(b: Board, id: string, to: Column)
    requires forall i :: 0 <= i < |AllCards(b)| ==> AllCards(b)[i].id != id
    ensures Moved(b, id, to) == b
  {
    var cards := AllCards(b);
    AllCardsIs(b);
    LastMatchNone(cards, id, None);
    assert [] + b.ideas + (b.scheduled + b.completed) == cards;
    NoneInColumn([], b.ideas, b.scheduled + b.completed, id);
    NoneInColumn(b.ideas, b.scheduled, b.completed, id);
    assert b.ideas + b.scheduled + b.completed + [] == cards;
    NoneInColumn(b.ideas + b.scheduled, b.completed, [], id);
  }

  /** No card of `a + c + e` has the id, so none of `c` has it. */
  lemma NoneInColumn(a: seq<Card>, c: seq<Card>, e: seq<Card>, id: string)
    requires forall i :: 0 <= i < |a + c + e| ==> (a + c + e)[i].id != id
    ensures Folds.Without(c, IdOf, id) == c
  {
    forall i | 0 <= i < |c| ensures c[i].id != id {
      assert c[i] == (a + c + e)[|a| + i];
    }
    Folds.WithoutNoMatch(c, IdOf, id);
  }

  /**
   * With an id on some card, every copy leaves the other columns and `to`
   * ends with the last copy in board order.
   */
  lemma MoveLastCopy(b: Board, id: string, to: Column, k: int)
    requires 0 <= k < |AllCards(b)| && AllCards(b)[k].id == id
    ensures forall d :: d != to ==> Moved(b, id, to).Get(d) == Folds.Without(b.Get(d), IdOf, id)
    ensures k <= LastIndex(AllCards(b), id)
    ensures Moved(b, id, to).Get(to) == Folds.Without(b.Get(to), IdOf, id) + [AllCards(b)[LastIndex(AllCards(b), id)]]
  {
    LastMatchFound(AllCards(b), id, None, k);
  }

  /** No two cards of the board share an id, as on the seed board. */
  predicate UniqueIds(b: Board) {
    var cards := AllCards(b);
    forall p, q :: 0 <= p < q < |cards| ==> cards[p].id != cards[q].id
  }

  /** Where column `c` starts in `AllCards(b)`. */
  function Offset(b: Board, c: Column): nat {
    match c
    case Ideas => 0
    case Scheduled => |b.ideas|
    case Completed => |b.ideas| + |b.scheduled|
  }

  lemma AllCardsAt(b: Board, c: Column, i: int)
    requires 0 <= i < |b.Get(c)|
    ensures Offset(b, c) + i < |AllCards(b)| && AllCards(b)[Offset(b, c) + i] == b.Get(c)[i]
  {
    AllCardsIs(b);
  }

  /** On a board with unique ids, the card at `(from, j)` is the only one with its id. */
  lemma Located(b: Board, from: Column, j: int, d: Column, i: int)
    requires UniqueIds(b) && 0 <= j < |b.Get(from)| && 0 <= i < |b.Get(d)|
    requires b.Get(d)[i].id == b.Get(from)[j].id
    ensures d == from && i == j
  {
    AllCardsAt(b, from, j);
    AllCardsAt(b, d, i);
  }

  /** With unique ids, `moved` ends as the card at `(from, j)`. */
  lemma LastMatchUnique(b: Board, from: Column, j: int)
    requires UniqueIds(b) && 0 <= j < |b.Get(from)|
    ensures LastMatch(AllCards(b), b.Get(from)[j].id, None) == Some(b.Get(from)[j])
  {
    var cards := AllCards(b);
    var id := b.Get(from)[j].id;
    var k := Offset(b, from) + j;
    AllCardsAt(b, from, j);
    LastMatchFound(cards, id, None, k);
    assert LastIndex(cards, id) == k;
  }

  /** `cards` with the card at index `j` taken out. */
  function RemoveAt(cards: seq<Card>, j: int): (r: seq<Card>)
    requires 0 <= j < |cards|
    ensures |r| == |cards| - 1
  {
    cards[..j] + cards[j + 1..]
  }

  /** Taking out the card at `j` takes one copy of it out of the multiset. */
  lemma RemoveAtMultiset(cards: seq<Card>, j: int)
    requires 0 <= j < |cards|
    ensures multiset(RemoveAt(cards, j)) + multiset{cards[j]} == multiset(cards)
  {
    assert cards == cards[..j] + [cards[j]] + cards[j + 1..];
  }

  /** Filtering the id of the only card that carries it takes out just that card. */
  lemma WithoutOnlyCopy(cards: seq<Card>, j: int)
    requires 0 <= j < |cards|
    requires forall i :: 0 <= i < |cards| && cards[i].id == cards[j].id ==> i == j
    ensures Folds.Without(cards, IdOf, cards[j].id) == RemoveAt(cards, j)
  {
    var id := cards[j].id;
    SliceNoId(cards, 0, j, id);
    SliceNoId(cards, j + 1, |cards|, id);
    SplitAt(cards, j);
    WithoutAround(cards[0..j], cards[j], cards[j + 1..|cards|], id);
  }

  /** A sequence is what comes before `j`, the card at `j` and what comes after. */
  lemma SplitAt(cards: seq<Card>, j: int)
    requires 0 <= j < |cards|
    ensures cards == cards[0..j] + [cards[j]] + cards[j + 1..|cards|]
  {
  }

  /** A stretch of cards none of which has the id, cut out as a sequence of its own. */
  lemma SliceNoId(cards: seq<Card>, lo: int, hi: int, id: string)
    requires 0 <= lo <= hi <= |cards|
    requires forall i :: lo <= i < hi ==> cards[i].id != id
    ensures forall i :: 0 <= i < hi - lo ==> cards[lo..hi][i].id != id
  {
  }

  /** The filter takes out one card with the id from between cards without it. */
  lemma WithoutAround(front: seq<Card>, c: Card, back: seq<Card>, id: string)
    requires c.id == id
    requires forall i :: 0 <= i < |front| ==> front[i].id != id
    requires forall i :: 0 <= i < |back| ==> back[i].id != id
    ensures Folds.Without(front + [c] + back, IdOf, id) == front + back
  {
    Folds.WithoutAppend(front + [c], back, IdOf, id);
    Folds.WithoutAppend(front, [c], IdOf, id);
    Folds.WithoutNoMatch(front, IdOf, id);
    Folds.WithoutNoMatch(back, IdOf, id);
    WithoutDropped(c, id);
  }

  /** The filter drops a single card with the id. */
  lemma WithoutDropped(c: Card, id: string)
    requires c.id == id
    ensures Folds.Without([c], IdOf, id) == []
  {
    assert [c][..0] == [];
  }

  /** With unique ids, stripping the id of the card at `(from, j)` only takes that card out. */
  lemma StrippedUnique(b: Board, from: Column, j: int, d: Column)
    requires UniqueIds(b) && 0 <= j < |b.Get(from)|
    ensures Stripped(b, b.Get(from)[j].id).Get(d) == if d == from then RemoveAt(b.Get(from), j) else b.Get(d)
  {
    var id := b.Get(from)[j].id;
    forall c, i | 0 <= i < |b.Get(c)| && b.Get(c)[i].id == id
      ensures c == from && i == j
    {
      Located(b, from, j, c, i);
    }
    if d == from {
      WithoutOnlyCopy(b.Get(from), j);
    } else {
      Folds.WithoutNoMatch(b.Get(d), IdOf, id);
    }
    assert Stripped(b, id).Get(d) == Folds.Without(b.Get(d), IdOf, id) by {
      match d
      case Ideas =>
      case Scheduled =>
      case Completed =>
    }
  }

  /**
   * With unique ids, moving the card at `(from, j)` to `to` takes it out of
   * `from`, keeps every other card where it was and in order, and appends the
   * card to `to` (to the end of its own column when `to == from`).
   */
  lemma MoveUnique(b: Board, from: Column, j: int, to: Column, d: Column)
    requires UniqueIds(b) && 0 <= j < |b.Get(from)|
    ensures Moved(b, b.Get(from)[j].id, to).Get(d) ==
              (if d == from then RemoveAt(b.Get(from), j) else b.Get(d)) + (if d == to then [b.Get(from)[j]] else [])
  {
    var id := b.Get(from)[j].id;
    LastMatchUnique(b, from, j);
    StrippedUnique(b, from, j, d);
    StrippedUnique(b, from, j, to);
  }

  /** The cards of the board, counted column by column. */
  lemma AllCardsMultiset(b: Board)
    ensures multiset(AllCards(b)) == multiset(b.ideas) + multiset(b.scheduled) + multiset(b.completed)
  {
    AllCardsIs(b);
  }

  /** `{card}` in the column it names, nothing elsewhere. */
  function Mark(d: Column, c: Column, card: Card): multiset<Card> {
    if d == c then multiset{card} else multiset{}
  }

  lemma MarkSum(c: Column, card: Card)
    ensures Mark(Ideas, c, card) + Mark(Scheduled, c, card) + Mark(Completed, c, card) == multiset{card}
  {
  }

  /** Column `d` after the move, as a multiset: less the card if it was `from`, plus it if it is `to`. */
  lemma ColumnMultiset(b: Board, from: Column, j: int, to: Column, d: Column)
    requires UniqueIds(b) && 0 <= j < |b.Get(from)|
    ensures var card := b.Get(from)[j];
            multiset(Moved(b, card.id, to).Get(d)) + Mark(d, from, card) == multiset(b.Get(d)) + Mark(d, to, card)
  {
    MoveUnique(b, from, j, to, d);
    RemoveAtMultiset(b.Get(from), j);
  }

  /** Adding one card to the columns and taking it from them leaves the total as it was. */
  lemma ShiftBalances(m0: multiset<Card>, m1: multiset<Card>, m2: multiset<Card>,
                      b0: multiset<Card>, b1: multiset<Card>, b2: multiset<Card>,
                      x0: multiset<Card>, x1: multiset<Card>, x2: multiset<Card>,
                      y0: multiset<Card>, y1: multiset<Card>, y2: multiset<Card>)
    requires m0 + x0 == b0 + y0 && m1 + x1 == b1 + y1 && m2 + x2 == b2 + y2
    requires x0 + x1 + x2 == y0 + y1 + y2
    ensures m0 + m1 + m2 == b0 + b1 + b2
  {
    forall e ensures (m0 + m1 + m2)[e] == (b0 + b1 + b2)[e] {
      assert (m0 + x0)[e] == (b0 + y0)[e];
      assert (m1 + x1)[e] == (b1 + y1)[e];
      assert (m2 + x2)[e] == (b2 + y2)[e];
      assert (x0 + x1 + x2)[e] == (y0 + y1 + y2)[e];
    }
  }

  /** A board that differs from `b` by one card taken from `from` and put in `to` holds the same cards. */
  lemma BoardShift(m: Board, b: Board, from: Column, to: Column, card: Card)
    requires forall d :: multiset(m.Get(d)) + Mark(d, from, card) == multiset(b.Get(d)) + Mark(d, to, card)
    ensures multiset(AllCards(m)) == multiset(AllCards(b))
  {
    var x0, x1, x2 := Mark(Ideas, from, card), Mark(Scheduled, from, card), Mark(Completed, from, card);
    var y0, y1, y2 := Mark(Ideas, to, card), Mark(Scheduled, to, card), Mark(Completed, to, card);
    assert multiset(m.Get(Ideas)) + x0 == multiset(b.Get(Ideas)) + y0;
    assert multiset(m.Get(Scheduled)) + x1 == multiset(b.Get(Scheduled)) + y1;
    assert multiset(m.Get(Completed)) + x2 == multiset(b.Get(Completed)) + y2;
    MarkSum(from, card);
    MarkSum(to, card);
    ShiftBalances(multiset(m.ideas), multiset(m.scheduled), multiset(m.completed),
                  multiset(b.ideas), multiset(b.scheduled), multiset(b.completed),
                  x0, x1, x2, y0, y1, y2);
    AllCardsMultiset(b);
    AllCardsMultiset(m);
  }

  /** With unique ids, a move keeps the same cards, so also their number. */
  lemma MovePermutes(b: Board, from: Column, j: int, to: Column)
    requires UniqueIds(b) && 0 <= j < |b.Get(from)|
    ensures var m := Moved(b, b.Get(from)[j].id, to);
            multiset(AllCards(m)) == multiset(AllCards(b)) && |AllCards(m)| == |AllCards(b)|
  {
    var card := b.Get(from)[j];
    var m := Moved(b, card.id, to);
    forall d ensures multiset(m.Get(d)) + Mark(d, from, card) == multiset(b.Get(d)) + Mark(d, to, card) {
      ColumnMultiset(b, from, j, to, d);
    }
    BoardShift(m, b, from, to, card);
    assert |multiset(AllCards(m))| == |multiset(AllCards(b))|;
  }

  /** The seed board's ids are unique, so the lemmas above apply to it. */
  lemma InitialUnique()
    ensures UniqueIds(InitialBoard)
    ensures |AllCards(InitialBoard)| == 4
  {
    AllCardsIs(InitialBoard);
    var cards := AllCards(InitialBoard);
    assert cards == [Card("1", "Quarterly meetup in Berlin"), Card("2", "Sales kickoff in NYC"),
                     Card("3", "Vendor visit in London"), Card("4", "Team offsite in Lisbon")];
  }

  /** The board component's `board` state. */
  class Planner {
    var board: Board

    constructor ()
      ensures board == InitialBoard
    {
      board := InitialBoard;
    }

    /** A card dropped on column `to`. */
    method Drop(fromId: string, to: Column)
      modifies this
      ensures board == Moved(old(board), fromId, to)
    {
      board := Move(board, fromId, to);
    }
  }
}
