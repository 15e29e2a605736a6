/**
 * The saved-board list of src/screens/HomeScreen.tsx: loading the boards stored
 * under `board_` keys newest first, deleting one, and the relative date shown for
 * each. Device storage is a map from key to board; the key listing order and the
 * current time are parameters.
 */
module HomeScreen {
  import opened Basics
  import opened Strings
  import opened Sorting

  /** A stored board; its drawing data is not part of this model. */
  datatype SavedBoard = SavedBoard(id: string, name: string, timestamp: int)

  const BOARD_KEY_PREFIX: string := "board_"

  /** The sort key of `(a, b) => b.timestamp - a.timestamp`: larger timestamps first. */
  function NewestFirst(): SavedBoard -> real {
    (b: SavedBoard) => -(b.timestamp as real)
  }

  /** The boards read, in key order, from the keys with the board prefix that hold data. */
  function Collected(keys: seq<string>, storage: map<string, SavedBoard>): (r: seq<SavedBoard>)
    ensures |r| <= |keys|
  {
    if keys == [] then []
    else
      var k := keys[0];
      (if StartsWith(k, BOARD_KEY_PREFIX) && k in storage then [storage[k]] else []) + Collected(keys[1..], storage)
  }

  /** The board read for one key: one board when the key has the prefix and holds data, else none. */
  function ReadKey(k: string, storage: map<string, SavedBoard>): seq<SavedBoard> {
    if StartsWith(k, BOARD_KEY_PREFIX) && k in storage then [storage[k]] else []
  }

  lemma CollectedStep(keys: seq<string>, i: nat, storage: map<string, SavedBoard>)
    requires i < |keys|
    ensures Collected(keys[i..], storage) == ReadKey(keys[i], storage) + Collected(keys[i + 1..], storage)
  {
    assert keys[i..][1..] == keys[i + 1..];
  }

  /**
   * Only boards stored under a prefixed key are read, and every board stored under a
   * listed prefixed key is read.
   */
  lemma {:induction false} CollectedSpec(keys: seq<string>, storage: map<string, SavedBoard>)
    ensures forall b :: b in Collected(keys, storage) ==>
      exists k :: k in keys && StartsWith(k, BOARD_KEY_PREFIX) && k in storage && storage[k] == b
    ensures forall k :: k in keys && StartsWith(k, BOARD_KEY_PREFIX) && k in storage ==> storage[k] in Collected(keys, storage)
  {
    if keys != [] {
      CollectedSpec(keys[1..], storage);
      assert forall k :: k in keys[1..] ==> k in keys;
      assert forall k :: k in keys ==> k == keys[0] || k in keys[1..];
    }
  }

  /** The list `loadSavedBoards` shows: the collected boards, stably sorted newest first. */
  function LoadedBoards(keys: seq<string>, storage: map<string, SavedBoard>): seq<SavedBoard> {
    SortBy(Collected(keys, storage), NewestFirst())
  }

  /** Sorted by descending timestamp. */
  predicate NewestFirstOrder(boards: seq<SavedBoard>) {
    forall i, j :: 0 <= i < j < |boards| ==> boards[i].timestamp >= boards[j].timestamp
  }

  class BoardList {
    var savedBoards: seq<SavedBoard>
    var storage: map<string, SavedBoard>

    constructor(stored: map<string, SavedBoard>)
      ensures savedBoards == [] && storage == stored
    {
      savedBoards := [];
      storage := stored;
    }

    /**
     * `loadSavedBoards`: push the board of each prefixed key that holds data, in key
     * order, then sort them newest first (stably).
     */
    method LoadSavedBoards(keys: seq<string>)
      modifies this
      ensures storage == old(storage)
      ensures savedBoards == LoadedBoards(keys, storage)
    {
      var st := storage;
      var boards: seq<SavedBoard> := [];
      for i := 0 to |keys|
        invariant boards + Collected(keys[i..], st) == Collected(keys, st)
        invariant storage == st
      {
        CollectedStep(keys, i, st);
        if StartsWith(keys[i], BOARD_KEY_PREFIX) && keys[i] in st {
          boards := boards + [st[keys[i]]];
        }
      }
      assert keys[|keys|..] == [];
      assert boards == Collected(keys, st);
      savedBoards := SortBy(boards, NewestFirst());
    }

    /**
     * The confirmed branch of `deleteBoard`: drop the board's storage entry and keep
     * the listed boards with other ids, in order.
     */
    method DeleteBoard(boardId: string)
      modifies this
      ensures storage == old(storage) - {BOARD_KEY_PREFIX + boardId}
      ensures savedBoards == WithoutBoard(old(savedBoards), boardId)
    {
      storage := storage - {BOARD_KEY_PREFIX + boardId};
      savedBoards := WithoutBoard(savedBoards, boardId);
    }
  }

  /** Sorted by the newest-first key means sorted by descending timestamp. */
  lemma SortedNewestFirst(boards: seq<SavedBoard>)
    requires SortedBy(boards, NewestFirst())
    ensures NewestFirstOrder(boards)
  {
    forall i, j | 0 <= i < j < |boards| ensures boards[i].timestamp >= boards[j].timestamp {
      var a, b := boards[i].timestamp as real, boards[j].timestamp as real;
      assert NewestFirst()(boards[i]) == -a && NewestFirst()(boards[j]) == -b;
      assert -a <= -b;
    }
  }

  /**
   * The loaded list is newest first, holds exactly the collected boards, and boards
   * with equal timestamps keep their key order.
   */
  lemma LoadedOrder(keys: seq<string>, storage: map<string, SavedBoard>, t: int)
    ensures var r := LoadedBoards(keys, storage);
      NewestFirstOrder(r) &&
      multiset(r) == multiset(Collected(keys, storage)) &&
      WithKey(r, NewestFirst(), -(t as real)) == WithKey(Collected(keys, storage), NewestFirst(), -(t as real))
  {
    var c := Collected(keys, storage);
    var key := NewestFirst();
    var r := SortBy(c, key);
    assert r == LoadedBoards(keys, storage);
    assert NewestFirstOrder(r) by {
      SortBySorted(c, key);
      SortedNewestFirst(r);
    }
    assert WithKey(r, key, -(t as real)) == WithKey(c, key, -(t as real)) by {
      SortByStable(c, key, -(t as real));
    }
    assert multiset(r) == multiset(c);
  }

  /** `boards.filter(board => board.id !== boardId)`. */
  function WithoutBoard(boards: seq<SavedBoard>, boardId: string): (r: seq<SavedBoard>)
    ensures |r| <= |boards|
  {
    if boards == [] then []
    else (if boards[0].id == boardId then [] else [boards[0]]) + WithoutBoard(boards[1..], boardId)
  }

  /** Deleting keeps exactly the boards with other ids. */
  lemma {:induction false} WithoutBoardMembers(boards: seq<SavedBoard>, boardId: string)
    ensures forall b :: b in WithoutBoard(boards, boardId) <==> b in boards && b.id != boardId
  {
    if boards != [] {
      WithoutBoardMembers(boards[1..], boardId);
      assert boards == [boards[0]] + boards[1..];
    }
  }

  /** Deleting from a newest-first list leaves it newest first. */
  lemma {:induction false} WithoutBoardOrder(boards: seq<SavedBoard>, boardId: string)
    requires NewestFirstOrder(boards)
    ensures NewestFirstOrder(WithoutBoard(boards, boardId))
  {
    if boards != [] {
      var t := boards[1..];
      assert NewestFirstOrder(t) by {
        forall i, j | 0 <= i < j < |t| ensures t[i].timestamp >= t[j].timestamp {
          assert t[i] == boards[i + 1] && t[j] == boards[j + 1];
        }
      }
      WithoutBoardOrder(t, boardId);
      var r := WithoutBoard(boards, boardId);
      var rt := WithoutBoard(t, boardId);
      if boards[0].id != boardId {
        WithoutBoardMembers(t, boardId);
        assert r == [boards[0]] + rt;
        forall i, j | 0 <= i < j < |r| ensures r[i].timestamp >= r[j].timestamp {
          if i == 0 {
            assert r[j] == rt[j - 1];
            assert rt[j - 1] in t;
            var m :| 0 <= m < |t| && t[m] == rt[j - 1];
            assert boards[m + 1] == t[m];
          } else {
            assert r[i] == rt[i - 1] && r[j] == rt[j - 1];
          }
        }
      }
    }
  }

  /** The relative date shown for a board. */
  datatype DateLabel = JustNow | HoursAgo(hours: nat) | DaysAgo(days: nat) | OnDate(timestamp: int)

  const MS_PER_HOUR: int := 3600000

  /**
   * `formatDate`: whole hours since the timestamp, rounded down, and whole days of
   * those hours; under an hour (also any time in the future) is "just now", under a
   * day counts hours, under a week counts days, and older shows the date itself.
   * Integer division by a positive number rounds down, as `Math.floor` does.
   */
  function FormatDate(timestamp: int, now: int): DateLabel {
    var diffMs := now - timestamp;
    var diffHours := diffMs / MS_PER_HOUR;
    var diffDays := diffHours / 24;
    if diffHours < 1 then JustNow
    else if diffHours < 24 then HoursAgo(diffHours)
    else if diffDays < 7 then DaysAgo(diffDays)
    else OnDate(timestamp)
  }

  /**
   * The buckets by elapsed time: "just now" exactly below one hour (the future
   * included), h hours ago for h in 1..23 exactly when h whole hours have passed,
   * d days ago for d in 1..6 exactly when d whole days have passed, the date from
   * seven days on.
   */
  lemma FormatDateSpec(timestamp: int, now: int)
    ensures var d := now - timestamp; var r := FormatDate(timestamp, now);
      (r == JustNow <==> d < MS_PER_HOUR) &&
      (r.HoursAgo? <==> MS_PER_HOUR <= d < 24 * MS_PER_HOUR) &&
      (r.HoursAgo? ==> 1 <= r.hours < 24 && r.hours * MS_PER_HOUR <= d < (r.hours + 1) * MS_PER_HOUR) &&
      (r.DaysAgo? <==> 24 * MS_PER_HOUR <= d < 7 * 24 * MS_PER_HOUR) &&
      (r.DaysAgo? ==> 1 <= r.days < 7 && r.days * 24 * MS_PER_HOUR <= d < (r.days + 1) * 24 * MS_PER_HOUR) &&
      (r.OnDate? <==> d >= 7 * 24 * MS_PER_HOUR)
  {
    var d := now - timestamp;
    var h := d / MS_PER_HOUR;
    assert h * MS_PER_HOUR <= d < (h + 1) * MS_PER_HOUR;
    var days := h / 24;
    assert days * 24 <= h < (days + 1) * 24;
    if h >= 24 {
      assert days * 24 * MS_PER_HOUR <= h * MS_PER_HOUR;
      assert (h + 1) * MS_PER_HOUR <= (days + 1) * 24 * MS_PER_HOUR;
    }
  }

  /** The text shown: "방금 전", "<h>시간 전", "<d>일 전", or the locale date from `localeDate`. */
  function DateText(dateLabel: DateLabel, localeDate: int -> string): string {
    match dateLabel
    case JustNow => "방금 전"
    case HoursAgo(h) => NatToString(h) + "시간 전"
    case DaysAgo(d) => NatToString(d) + "일 전"
    case OnDate(t) => localeDate(t)
  }
}
