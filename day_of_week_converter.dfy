/*
 * The JPA converter that stores an alarm's repeat days as one text column:
 * the day names sorted alphabetically and joined by ",", and read back by
 * splitting on "," and looking each piece up as a `java.time.DayOfWeek`
 * constant name. A Java `null` is `None`.
 */
module DayOfWeekConverter {
  import opened Common

  datatype DayOfWeek = MONDAY | TUESDAY | WEDNESDAY | THURSDAY | FRIDAY | SATURDAY | SUNDAY

  /** `DayOfWeek::name`. */
  function Name(d: DayOfWeek): (r: string)
    ensures IsWord(r)
  {
    match d
    case MONDAY => "MONDAY"
    case TUESDAY => "TUESDAY"
    case WEDNESDAY => "WEDNESDAY"
    case THURSDAY => "THURSDAY"
    case FRIDAY => "FRIDAY"
    case SATURDAY => "SATURDAY"
    case SUNDAY => "SUNDAY"
  }

  /** No two constants share a name. */
  lemma NameInjective(d: DayOfWeek, e: DayOfWeek)
    requires Name(d) == Name(e)
    ensures d == e
  {
    assert |Name(d)| == |Name(e)| && Name(d)[1] == Name(e)[1] && Name(d)[0] == Name(e)[0];
  }

  /** `DayOfWeek.valueOf`: the constant with exactly that name, or none (Java throws). */
  function ValueOf(s: string): (r: Option<DayOfWeek>)
    ensures r.Some? ==> Name(r.value) == s
    ensures r.None? ==> forall d :: Name(d) != s
  {
    if exists d :: Name(d) == s then
      var d :| Name(d) == s;
      Some(d)
    else None
  }

  /** Looking a constant's own name up finds that constant. */
  lemma ValueOfName(d: DayOfWeek)
    ensures ValueOf(Name(d)) == Some(d)
  {
    NameInjective(ValueOf(Name(d)).value, d);
  }

  /** `String.compareTo(a, b) < 0`: lexicographic order on characters, a proper prefix first. */
  predicate LexLess(a: string, b: string)
  {
    if |a| == 0 then |b| > 0
    else if |b| == 0 then false
    else a[0] < b[0] || (a[0] == b[0] && LexLess(a[1..], b[1..]))
  }

  predicate StrictlySorted(names: seq<string>)
  {
    forall i, j :: 0 <= i < j < |names| ==> LexLess(names[i], names[j])
  }

  /** The seven days in the alphabetical order of their names. */
  const Alphabetical: seq<DayOfWeek> := [FRIDAY, MONDAY, SATURDAY, SUNDAY, THURSDAY, TUESDAY, WEDNESDAY]

  /** The names of the days of `s`, in the order they appear in `order`. */
  function NamesInOrder(order: seq<DayOfWeek>, s: set<DayOfWeek>): (r: seq<string>)
    ensures |r| <= |order|
    ensures forall i :: 0 <= i < |r| ==> IsWord(r[i])
  {
    if |order| == 0 then []
    else (if order[0] in s then [Name(order[0])] else []) + NamesInOrder(order[1..], s)
  }

  /** The day list is indeed in ascending name order. */
  lemma AlphabeticalSorted()
    ensures forall i, j :: 0 <= i < j < |Alphabetical| ==> LexLess(Name(Alphabetical[i]), Name(Alphabetical[j]))
  {
    forall i, j | 0 <= i < j < |Alphabetical|
      ensures LexLess(Name(Alphabetical[i]), Name(Alphabetical[j]))
    {
      var a, b := Name(Alphabetical[i]), Name(Alphabetical[j]);
      if (i == 2 && j == 3) || (i == 4 && j == 5) {
        // SATURDAY before SUNDAY, THURSDAY before TUESDAY: decided by the second letter.
        assert a[0] == b[0] && a[1..][0] < b[1..][0];
      } else {
        assert a[0] < b[0];
      }
    }
  }

  /** Each name picked is that of a day of `s` at some position of `order`. */
  lemma {:induction false} NamesInOrderFrom(order: seq<DayOfWeek>, s: set<DayOfWeek>, i: nat)
    requires i < |NamesInOrder(order, s)|
    ensures exists k :: 0 <= k < |order| && order[k] in s && NamesInOrder(order, s)[i] == Name(order[k])
  {
    var head := if order[0] in s then [Name(order[0])] else [];
    var tail := NamesInOrder(order[1..], s);
    assert NamesInOrder(order, s) == head + tail;
    if i < |head| {
      assert NamesInOrder(order, s)[i] == Name(order[0]);
    } else {
      var j := i - |head|;
      assert NamesInOrder(order, s)[i] == tail[j];
      NamesInOrderFrom(order[1..], s, j);
      var k :| 0 <= k < |order[1..]| && order[1..][k] in s && tail[j] == Name(order[1..][k]);
      assert order[k + 1] == order[1..][k];
    }
  }

  /** Picking days out of a list sorted by name keeps the names sorted. */
  lemma {:induction false} NamesInOrderSorted(order: seq<DayOfWeek>, s: set<DayOfWeek>)
    requires forall i, j :: 0 <= i < j < |order| ==> LexLess(Name(order[i]), Name(order[j]))
    ensures StrictlySorted(NamesInOrder(order, s))
  {
    if |order| > 0 {
      var rest := order[1..];
      NamesInOrderSorted(rest, s);
      var tail := NamesInOrder(rest, s);
      if order[0] in s {
        forall j | 0 <= j < |tail| ensures LexLess(Name(order[0]), tail[j]) {
          NamesInOrderFrom(rest, s, j);
          var k :| 0 <= k < |rest| && rest[k] in s && tail[j] == Name(rest[k]);
          assert rest[k] == order[k + 1];
        }
      }
    }
  }

  /** The names picked are those of exactly the days of `s` that `order` lists. */
  lemma {:induction false} NamesInOrderMembers(order: seq<DayOfWeek>, s: set<DayOfWeek>, d: DayOfWeek)
    ensures Name(d) in NamesInOrder(order, s) <==> d in s && d in order
  {
    if |order| > 0 {
      NamesInOrderMembers(order[1..], s, d);
      assert order == [order[0]] + order[1..];
      if Name(d) == Name(order[0]) {
        ValueOfName(d);
        ValueOfName(order[0]);
      }
    }
  }

  /**
   * `convertToDatabaseColumn`: a null or empty set is stored as null,
   * any other set as its day names sorted and joined by ",".
   */
  function ToColumn(attribute: Option<set<DayOfWeek>>): (r: Option<string>)
    ensures attribute.None? || attribute == Some({}) ==> r.None?
  {
    if attribute.None? || attribute.value == {} then None
    else Some(Join(NamesInOrder(Alphabetical, attribute.value), ","))
  }

  /**
   * What a non-empty set is stored as: the join of a strictly ascending list
   * of names that holds the name of each day of the set and nothing else.
   */
  lemma ToColumnSortedNames(s: set<DayOfWeek>)
    requires s != {}
    ensures
      var names := NamesInOrder(Alphabetical, s);
      ToColumn(Some(s)) == Some(Join(names, ",")) &&
      StrictlySorted(names) &&
      (forall d :: Name(d) in names <==> d in s) &&
      (forall i :: 0 <= i < |names| ==> IsWord(names[i]))
  {
    AlphabeticalSorted();
    NamesInOrderSorted(Alphabetical, s);
    forall d ensures Name(d) in NamesInOrder(Alphabetical, s) <==> d in s {
      NamesInOrderMembers(Alphabetical, s, d);
    }
  }

  /** Reading a column: the set of days, or the first piece that names no day (Java throws). */
  datatype Outcome = Days(days: set<DayOfWeek>) | UnknownName(name: string)

  /** `map(DayOfWeek::valueOf)` collected into a set, stopping at the first unknown name. */
  function ValuesOf(parts: seq<string>): (r: Outcome)
    ensures r.UnknownName? ==> r.name in parts && ValueOf(r.name).None?
  {
    if |parts| == 0 then Days({})
    else
      match ValueOf(parts[0])
      case None => UnknownName(parts[0])
      case Some(d) =>
        var rest := ValuesOf(parts[1..]);
        if rest.UnknownName? then rest
        else
          assert parts == [parts[0]] + parts[1..];
          Days({d} + rest.days)
  }

  /**
   * `convertToEntityAttribute`: a null or blank column is the empty set;
   * otherwise each piece of the Java split on "," must be a day name.
   */
  function FromColumn(dbData: Option<string>): (r: Outcome)
    ensures dbData.None? || TrimsToEmpty(dbData.value) ==> r == Days({})
  {
    if dbData.None? || TrimsToEmpty(dbData.value) then Days({})
    else ValuesOf(JavaSplit(dbData.value, ','))
  }

  /** A name padded with a space is not a day name, so a padded column fails to read. */
  lemma PaddedColumnRejected(d: DayOfWeek, e: DayOfWeek)
    ensures FromColumn(Some(Name(d) + ", " + Name(e))) == UnknownName(" " + Name(e))
  {
    var first := Name(d);
    var padded := " " + Name(e);
    var column := first + ", " + Name(e);
    assert column == first + [','] + padded;
    assert ',' !in first by {
      forall k | 0 <= k < |first| ensures first[k] != ',' { assert IsWord(first); }
    }
    assert ',' !in padded by {
      forall k | 0 <= k < |padded| ensures padded[k] != ',' {
        if k > 0 { assert padded[k] == Name(e)[k - 1]; }
      }
    }
    SplitTwo(first, padded);
    assert !TrimsToEmpty(column) by {
      assert IsWord(first) && column[0] == first[0];
    }
    NotAWord(padded);
    ValueOfName(d);
    assert [first, padded][1..] == [padded];
    assert ValuesOf([padded]) == UnknownName(padded);
    assert ValuesOf([first, padded]) == UnknownName(padded);
  }

  /** A piece that does not start with a capital letter names no day. */
  lemma NotAWord(p: string)
    requires |p| > 0 && !('A' <= p[0] <= 'Z')
    ensures ValueOf(p).None?
  {
  }

  /** Two pieces without "," joined by one "," split back into those two. */
  lemma SplitTwo(a: string, b: string)
    requires ',' !in a && ',' !in b && b != ""
    ensures JavaSplit(a + [','] + b, ',') == [a, b]
  {
    SplitAllFront(a, ',', b);
    SplitAllNoSeparator(b, ',');
    assert (a + [','] + b)[|a|] == ',';
  }

  /** Upper-case letters only, and at least one of them. */
  predicate IsWord(x: string)
  {
    |x| >= 1 && forall i :: 0 <= i < |x| ==> 'A' <= x[i] <= 'Z'
  }

  /** Java-splitting a join of words on "," gives the words back, and the join is not blank. */
  lemma {:induction false} SplitJoinedWords(words: seq<string>)
    requires |words| >= 1
    requires forall i :: 0 <= i < |words| ==> IsWord(words[i])
    ensures JavaSplit(Join(words, ","), ',') == words
    ensures !TrimsToEmpty(Join(words, ","))
  {
    var column := Join(words, ",");
    forall i | 0 <= i < |words| ensures ',' !in words[i] {
      var w := words[i];
      assert forall k :: 0 <= k < |w| ==> w[k] != ',';
    }
    SplitAllJoin(words, ',');
    JoinStartsWithFirst(words, ",");
    assert column[0] == words[0][0];
    if ',' !in column {
      assert JavaSplit(column, ',') == [column];
      assert |SplitAll(column, ',')| == 1;
    } else {
      assert words[|words| - 1] != "";
    }
  }

  /** Round trip: whatever set is stored, reading the column gives it back. */
  lemma {:induction false} ToColumnThenFromColumn(s: set<DayOfWeek>)
    ensures FromColumn(ToColumn(Some(s))) == Days(s)
  {
    if s != {} {
      var names := NamesInOrder(Alphabetical, s);
      var column := Join(names, ",");
      ToColumnSortedNames(s);
      assert |names| >= 1 by {
        var d :| d in s;
        assert Name(d) in names;
      }
      SplitJoinedWords(names);
      assert ValuesOf(names) == Days(s) by {
        ValuesOfNamesInOrder(Alphabetical, s);
        forall d ensures d in ValuesOf(names).days <==> d in s {
          EveryDayListed(d);
        }
      }
      calc {
        FromColumn(ToColumn(Some(s)));
        FromColumn(Some(column));
        ValuesOf(JavaSplit(column, ','));
        ValuesOf(names);
      }
    }
  }

  /** Reading back the names picked out of `order` gives the days of `s` that `order` lists. */
  lemma {:induction false} ValuesOfNamesInOrder(order: seq<DayOfWeek>, s: set<DayOfWeek>)
    ensures ValuesOf(NamesInOrder(order, s)).Days?
    ensures forall d :: d in ValuesOf(NamesInOrder(order, s)).days <==> d in s && d in order
  {
    if |order| > 0 {
      var tail := NamesInOrder(order[1..], s);
      ValuesOfNamesInOrder(order[1..], s);
      assert order == [order[0]] + order[1..];
      if order[0] in s {
        var r := [Name(order[0])] + tail;
        assert NamesInOrder(order, s) == r;
        assert r[0] == Name(order[0]) && r[1..] == tail;
        ValueOfName(order[0]);
        assert ValuesOf(r) == Days({order[0]} + ValuesOf(tail).days);
      } else {
        assert NamesInOrder(order, s) == tail;
      }
    }
  }

  /** The alphabetical list names every day. */
  lemma EveryDayListed(d: DayOfWeek)
    ensures d in Alphabetical
  {
    match d
    case MONDAY => assert Alphabetical[1] == d;
    case TUESDAY => assert Alphabetical[5] == d;
    case WEDNESDAY => assert Alphabetical[6] == d;
    case THURSDAY => assert Alphabetical[4] == d;
    case FRIDAY => assert Alphabetical[0] == d;
    case SATURDAY => assert Alphabetical[2] == d;
    case SUNDAY => assert Alphabetical[3] == d;
  }

  /** A join starts with its first part. */
  lemma {:induction false} JoinStartsWithFirst(parts: seq<string>, sep: string)
    requires |parts| >= 1
    ensures IsPrefix(parts[0], Join(parts, sep))
  {
  }
}
