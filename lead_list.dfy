/**
 * The dashboard's lead list view and its summary figures: filtering by status,
 * sorting a copy by score, name or a recency value parsed from the free-text
 * "last contact", the next lead id, and the stats cards.
 */
module LeadList {
  import opened Wrappers
  import opened Text
  import opened Leads

  /** `leads.filter(lead => lead.status === filter)`, or every lead for `"all"`. */
  function Filter(leads: seq<Lead>, f: StatusFilter): (r: seq<Lead>)
    ensures |r| <= |leads|
    ensures forall l :: l in r <==> l in leads && f.Admits(l.status)
    ensures f.All? ==> r == leads
  {
    if leads == [] then []
    else
      var rest := Filter(leads[1..], f);
      assert forall l :: l in leads <==> l == leads[0] || l in leads[1..];
      if f.Admits(leads[0].status) then [leads[0]] + rest else rest
  }

  /** Filtering a concatenation filters each part: the admitted leads keep
      their relative order and their multiplicity. */
  lemma {:induction false} FilterAppend(a: seq<Lead>, b: seq<Lead>, f: StatusFilter)
    ensures Filter(a + b, f) == Filter(a, f) + Filter(b, f)
  {
    if a != [] {
      assert (a + b)[0] == a[0] && (a + b)[1..] == a[1..] + b;
      FilterAppend(a[1..], b, f);
    } else {
      assert a + b == b;
    }
  }

  /** A single lead is kept exactly when the filter admits its status. */
  lemma FilterSingle(x: Lead, f: StatusFilter)
    ensures Filter([x], f) == if f.Admits(x.status) then [x] else []
  {
    assert [x][1..] == [];
  }

  /** Each admitted lead occurs in the filtered list as often as in the list;
      the others do not occur. */
  lemma {:induction false} FilterCount(leads: seq<Lead>, f: StatusFilter, x: Lead)
    ensures multiset(Filter(leads, f))[x] == if f.Admits(x.status) then multiset(leads)[x] else 0
  {
    if leads != [] {
      assert leads == [leads[0]] + leads[1..];
      FilterCount(leads[1..], f, x);
    }
  }

  /** `x || d` for a `parseInt` result: NaN and 0 are both falsy. */
  function OrElse(p: Option<int>, d: int): (r: int)
    ensures p.Some? && p.value != 0 ==> r == p.value
    ensures p.None? || p.value == 0 ==> r == d
  {
    if p.Some? && p.value != 0 then p.value else d
  }

  /** `parseTime`: minutes since the last contact, read from its description.
      "min" is tested before "hora", and "hora" before "dia"; anything else is
      9999 (oldest). */
  function ParseTime(s: string): int {
    if Contains(s, "min") then OrElse(ParseInt(s), 0)
    else if Contains(s, "hora") then OrElse(ParseInt(s), 1) * 60
    else if Contains(s, "dia") then OrElse(ParseInt(s), 1) * 1440
    else 9999
  }

  /** The recency key of a lead. The page calls `parseTime` on `lastContact`,
      which throws for a lead without one; `View` requires that this does not
      happen, so the value given for a missing description is never consulted. */
  function Recency(l: Lead): int {
    match l.lastContact
    case Some(s) => ParseTime(s)
    case None => 9999
  }

  /** The order each sort option asks for, as "a may stay before b", i.e. the
      page's comparator returns a value <= 0 for (a, b). Names are compared
      with the browser's `localeCompare`, given as the preorder `nameLe`. */
  function Before(sortBy: SortOption, nameLe: (string, string) -> bool): (Lead, Lead) -> bool {
    match sortBy
    case ScoreDesc => (a: Lead, b: Lead) => b.score - a.score <= 0
    case ScoreAsc => (a: Lead, b: Lead) => a.score - b.score <= 0
    case NameAsc => (a: Lead, b: Lead) => nameLe(a.name, b.name)
    case NameDesc => (a: Lead, b: Lead) => nameLe(b.name, a.name)
    case DateDesc => (a: Lead, b: Lead) => Recency(a) - Recency(b) <= 0
    case DateAsc => (a: Lead, b: Lead) => Recency(b) - Recency(a) <= 0
  }

  ghost predicate TotalPreorder<T(!new)>(le: (T, T) -> bool) {
    && (forall a, b :: le(a, b) || le(b, a))
    && (forall a, b, c :: le(a, b) && le(b, c) ==> le(a, c))
  }

  ghost predicate SortedBy<T>(s: seq<T>, le: (T, T) -> bool) {
    forall i, j :: 0 <= i < j < |s| ==> le(s[i], s[j])
  }

  /** Insert `x` before the first element it may stay before. */
  function Insert<T>(x: T, s: seq<T>, le: (T, T) -> bool): (r: seq<T>)
    ensures multiset(r) == multiset(s) + multiset{x}
    ensures |r| == |s| + 1
  {
    if s == [] then [x]
    else if le(x, s[0]) then [x] + s
    else
      assert s == [s[0]] + s[1..];
      [s[0]] + Insert(x, s[1..], le)
  }

  /** Inserting into a sorted sequence keeps it sorted. */
  lemma {:induction false} InsertSorted<T(!new)>(x: T, s: seq<T>, le: (T, T) -> bool)
    requires TotalPreorder(le)
    requires SortedBy(s, le)
    ensures SortedBy(Insert(x, s, le), le)
  {
    if s != [] && !le(x, s[0]) {
      var tail := Insert(x, s[1..], le);
      InsertSorted(x, s[1..], le);
      assert le(s[0], x);
      forall k | 0 <= k < |tail| ensures le(s[0], tail[k]) {
        assert tail[k] in multiset(tail);
        assert tail[k] == x || tail[k] in multiset(s[1..]);
        if tail[k] != x {
          var m :| 0 <= m < |s[1..]| && s[1..][m] == tail[k];
          assert s[m + 1] == tail[k];
        }
      }
      var r := [s[0]] + tail;
      forall i, j | 0 <= i < j < |r| ensures le(r[i], r[j]) {
        if i > 0 {
          assert r[i] == tail[i - 1] && r[j] == tail[j - 1];
        } else {
          assert r[j] == tail[j - 1];
        }
      }
    } else if s != [] {
      var r := [x] + s;
      forall i, j | 0 <= i < j < |r| ensures le(r[i], r[j]) {
        if i == 0 {
          assert r[j] == s[j - 1];
          assert le(s[0], s[j - 1]) || j == 1;
        }
      }
    }
  }

  /** `Array.prototype.sort` with a comparator, as a stable insertion sort. */
  function Sort<T>(s: seq<T>, le: (T, T) -> bool): (r: seq<T>)
    ensures multiset(r) == multiset(s)
    ensures |r| == |s|
  {
    if s == [] then []
    else
      assert s == [s[0]] + s[1..];
      Insert(s[0], Sort(s[1..], le), le)
  }

  /** The sort's result is ordered whenever the comparator is a total preorder. */
  lemma {:induction false} SortSorted<T(!new)>(s: seq<T>, le: (T, T) -> bool)
    requires TotalPreorder(le)
    ensures SortedBy(Sort(s, le), le)
  {
    if s != [] {
      SortSorted(s[1..], le);
      InsertSorted(s[0], Sort(s[1..], le), le);
    }
  }

  /** The comparators for score and recency are total preorders, whatever the
      name comparison is. */
  lemma KeyOrderIsPreorder(sortBy: SortOption, nameLe: (string, string) -> bool)
    requires !sortBy.NameAsc? && !sortBy.NameDesc?
    ensures TotalPreorder(Before(sortBy, nameLe))
  {
    var le := Before(sortBy, nameLe);
    match sortBy
    case ScoreDesc => assert forall a, b :: le(a, b) == (a.score >= b.score);
    case ScoreAsc => assert forall a, b :: le(a, b) == (a.score <= b.score);
    case DateDesc => assert forall a, b :: le(a, b) == (Recency(a) <= Recency(b));
    case DateAsc => assert forall a, b :: le(a, b) == (Recency(a) >= Recency(b));
  }

  /** Every comparator is a total preorder; the name comparators are when
      `nameLe` is. */
  lemma BeforeIsPreorder(sortBy: SortOption, nameLe: (string, string) -> bool)
    requires TotalPreorder(nameLe)
    ensures TotalPreorder(Before(sortBy, nameLe))
  {
    var le := Before(sortBy, nameLe);
    match sortBy
    case NameAsc => assert forall a, b :: le(a, b) == nameLe(a.name, b.name);
    case NameDesc => assert forall a, b :: le(a, b) == nameLe(b.name, a.name);
    case _ => KeyOrderIsPreorder(sortBy, nameLe);
  }

  /** Two elements the comparator cannot tell apart: each may stay before the other. */
  predicate Tie<T>(le: (T, T) -> bool, a: T, b: T) {
    le(a, b) && le(b, a)
  }

  /** The elements of `s` tied with `x`, in their order in `s`. */
  function TiedWith<T>(s: seq<T>, x: T, le: (T, T) -> bool): seq<T> {
    if s == [] then []
    else (if Tie(le, x, s[0]) then [s[0]] else []) + TiedWith(s[1..], x, le)
  }

  /** The tied elements of a sequence are those of its head, then those of its tail. */
  lemma TiedCons<T>(h: T, t: seq<T>, x: T, le: (T, T) -> bool)
    ensures TiedWith([h] + t, x, le) == (if Tie(le, x, h) then [h] else []) + TiedWith(t, x, le)
  {
    assert ([h] + t)[1..] == t;
  }

  /** Under a total preorder, anything tied with `x` may follow an element tied with `x`. */
  lemma TiesFollow<T(!new)>(x: T, y: T, le: (T, T) -> bool)
    requires TotalPreorder(le)
    ensures forall b :: Tie(le, x, y) && Tie(le, x, b) ==> le(y, b)
  {
  }

  /** Insertion puts `y` before every element tied with it, when `y` may stay
      before each of them. */
  lemma {:induction false} InsertTied<T>(y: T, t: seq<T>, x: T, le: (T, T) -> bool)
    requires forall b :: Tie(le, x, y) && Tie(le, x, b) ==> le(y, b)
    ensures TiedWith(Insert(y, t, le), x, le)
         == (if Tie(le, x, y) then [y] else []) + TiedWith(t, x, le)
  {
    if t == [] {
      TiedCons(y, [], x, le);
    } else if le(y, t[0]) {
      TiedCons(y, t, x, le);
    } else {
      InsertTied(y, t[1..], x, le);
      InsertTiedPast(y, t, x, le);
    }
  }

  /** The step of `InsertTied` where `y` moves past the head of `t`. */
  lemma InsertTiedPast<T>(y: T, t: seq<T>, x: T, le: (T, T) -> bool)
    requires t != [] && !le(y, t[0])
    requires !(Tie(le, x, y) && Tie(le, x, t[0]))
    requires TiedWith(Insert(y, t[1..], le), x, le)
          == (if Tie(le, x, y) then [y] else []) + TiedWith(t[1..], x, le)
    ensures TiedWith(Insert(y, t, le), x, le)
         == (if Tie(le, x, y) then [y] else []) + TiedWith(t, x, le)
  {
    var py := if Tie(le, x, y) then [y] else [];
    var pt := if Tie(le, x, t[0]) then [t[0]] else [];
    var rest := Insert(y, t[1..], le);
    var tail := TiedWith(t[1..], x, le);
    assert t == [t[0]] + t[1..];
    calc {
      TiedWith(Insert(y, t, le), x, le);
      TiedWith([t[0]] + rest, x, le);
      { TiedCons(t[0], rest, x, le); }
      pt + TiedWith(rest, x, le);
      pt + (py + tail);
      { SwapSingles(pt, py, tail); }
      py + (pt + tail);
      { TiedCons(t[0], t[1..], x, le); }
      py + TiedWith(t, x, le);
    }
  }

  /** Two sequences of which one is empty can be put in either order. */
  lemma SwapSingles<T>(p: seq<T>, q: seq<T>, r: seq<T>)
    requires p == [] || q == []
    ensures p + (q + r) == q + (p + r)
  {
    if p == [] {
      assert p + (q + r) == q + r;
    } else {
      assert q + (p + r) == p + r;
    }
  }

  /** The sort is stable: the elements tied with any `x` come out in the order
      they went in. */
  lemma {:induction false} SortStable<T(!new)>(s: seq<T>, x: T, le: (T, T) -> bool)
    requires TotalPreorder(le)
    ensures TiedWith(Sort(s, le), x, le) == TiedWith(s, x, le)
  {
    if s != [] {
      SortStable(s[1..], x, le);
      TiesFollow(x, s[0], le);
      InsertTied(s[0], Sort(s[1..], le), x, le);
    }
  }

  /** "N min ..." reads as N minutes, whatever follows. */
  lemma ParseTimeMinutes(n: nat, rest: string)
    requires n > 0
    ensures ParseTime(Decimal(n) + " min" + rest) == n
  {
    var s := Decimal(n) + " min" + rest;
    assert s == Decimal(n) + (" min" + rest);
    ContainsAt(" min" + rest, "min", 1);
    ContainsAppended(Decimal(n), " min" + rest, "min");
    ParseIntOfDecimal(n, " min" + rest);
  }

  /** A run of digits followed by `w` holds no `c` when `c` is not a digit and
      not in `w`. */
  lemma NoCharAfterDigits(d: string, w: string, c: char)
    requires forall k :: 0 <= k < |d| ==> IsDigit(d[k])
    requires !IsDigit(c)
    requires forall k :: 0 <= k < |w| ==> w[k] != c
    ensures forall k :: 0 <= k < |d + w| ==> (d + w)[k] != c
  {
    forall k | 0 <= k < |d + w| ensures (d + w)[k] != c {
      if k < |d| {
        assert (d + w)[k] == d[k];
      } else {
        assert (d + w)[k] == w[k - |d|];
      }
    }
  }

  /** A description "N word..." holds `word`, and `ParseInt` reads N from it. */
  lemma UnitDescription(n: nat, word: string, rest: string)
    requires n > 0
    ensures Contains(Decimal(n) + (" " + word + rest), word)
    ensures ParseInt(Decimal(n) + (" " + word + rest)) == Some(n)
  {
    var tail := " " + word + rest;
    assert tail[1..] == word + rest;
    ContainsAt(tail, word, 1);
    ContainsAppended(Decimal(n), tail, word);
    ParseIntOfDecimal(n, tail);
  }

  /** A description "N word..." holds `absent`, which starts with a letter that is
      not in " word", only when `rest` does. */
  lemma AbsentPastUnit(n: nat, word: string, rest: string, absent: string)
    requires |absent| > 0 && !IsDigit(absent[0])
    requires forall k :: 0 <= k < |word| ==> word[k] != absent[0]
    requires absent[0] != ' '
    requires !Contains(rest, absent)
    ensures !Contains(Decimal(n) + (" " + word + rest), absent)
  {
    var d := Decimal(n);
    assert d + (" " + word + rest) == (d + (" " + word)) + rest;
    NoCharAfterDigits(d, " " + word, absent[0]);
    ContainsPastPrefix(d + (" " + word), rest, absent);
  }

  lemma ParseTimeOf(s: string, n: int)
    requires ParseInt(s) == Some(n) && n != 0
    ensures Contains(s, "min") ==> ParseTime(s) == n
    ensures !Contains(s, "min") && Contains(s, "hora") ==> ParseTime(s) == n * 60
    ensures !Contains(s, "min") && !Contains(s, "hora") && Contains(s, "dia") ==> ParseTime(s) == n * 1440
  {
  }

  /** "N hora..." reads as N * 60 minutes when "min" does not follow. */
  lemma ParseTimeHours(n: nat, rest: string)
    requires n > 0 && !Contains(rest, "min")
    ensures ParseTime(Decimal(n) + " hora" + rest) == n * 60
  {
    var s := Decimal(n) + (" " + "hora" + rest);
    UnitDescription(n, "hora", rest);
    AbsentPastUnit(n, "hora", rest, "min");
    ParseTimeOf(s, n);
    HoraSpaced(Decimal(n), rest);
  }

  /** "N dia..." reads as N * 1440 minutes when neither "min" nor "hora" follows. */
  lemma ParseTimeDays(n: nat, rest: string)
    requires n > 0 && !Contains(rest, "min") && !Contains(rest, "hora")
    ensures ParseTime(Decimal(n) + " dia" + rest) == n * 1440
  {
    DiaSpaced(Decimal(n), rest);
    NoMinNoHoraPastDia(n, rest);
    UnitDescription(n, "dia", rest);
    ParseTimeOf(Decimal(n) + (" " + "dia" + rest), n);
  }

  lemma NoMinNoHoraPastDia(n: nat, rest: string)
    requires !Contains(rest, "min") && !Contains(rest, "hora")
    ensures !Contains(Decimal(n) + (" " + "dia" + rest), "min")
    ensures !Contains(Decimal(n) + (" " + "dia" + rest), "hora")
  {
    AbsentPastUnit(n, "dia", rest, "min");
    AbsentPastUnit(n, "dia", rest, "hora");
  }

  lemma HoraSpaced(d: string, rest: string)
    ensures d + " hora" + rest == d + (" " + "hora" + rest)
  {
  }

  lemma DiaSpaced(d: string, rest: string)
    ensures d + " dia" + rest == d + (" " + "dia" + rest)
  {
  }

  /** A string in which the first letter of `sub` never occurs does not hold `sub`. */
  lemma LetterAbsent(s: string, sub: string)
    requires sub != []
    requires forall k :: 0 <= k < |s| ==> s[k] != sub[0]
    ensures !Contains(s, sub)
  {
    assert s + [] == s;
    ContainsPastPrefix(s, [], sub);
  }

  lemma SeededSpellings()
    ensures Decimal(2) + " hora" + "s atrás" == "2 horas atrás"
    ensures Decimal(30) + " min" + " atrás" == "30 min atrás"
    ensures Decimal(3) + " dia" + "s atrás" == "3 dias atrás"
  {
    assert Decimal(2) == "2" && Decimal(30) == "30" && Decimal(3) == "3";
  }

  /** The seeded descriptions, and one that names no unit. */
  lemma ParseTimeHoursExample()
    ensures ParseTime("2 horas atrás") == 120
  {
    LetterAbsent("s atrás", "min");
    ParseTimeHours(2, "s atrás");
    SeededSpellings();
  }

  lemma ParseTimeMinutesExample()
    ensures ParseTime("30 min atrás") == 30
  {
    ParseTimeMinutes(30, " atrás");
    SeededSpellings();
  }

  lemma ParseTimeDaysExample()
    ensures ParseTime("3 dias atrás") == 4320
  {
    LetterAbsent("s atrás", "min");
    LetterAbsent("s atrás", "hora");
    ParseTimeDays(3, "s atrás");
    SeededSpellings();
  }

  lemma ParseTimeNoUnitExample()
    ensures ParseTime("Agora") == 9999
  {
    LetterAbsent("Agora", "min");
    LetterAbsent("Agora", "hora");
    LetterAbsent("Agora", "dia");
  }

  /** "min" wins over "hora": a description that names hours and then minutes
      reads as its leading number of minutes. */
  lemma MinutesTakePrecedence(n: nat, mid: string, rest: string)
    ensures ParseTime(Decimal(n) + " hora" + mid + "min" + rest) == n
  {
    var d, tail := Decimal(n), " hora" + mid + "min" + rest;
    assert d + " hora" + mid + "min" + rest == d + tail;
    HoursThenMinutes(mid, rest);
    ContainsAppended(d, tail, "min");
    ParseIntOfDecimal(n, tail);
    assert ParseTime(d + tail) == n;
  }

  /** "min" occurs in a description that names hours and then minutes. */
  lemma HoursThenMinutes(mid: string, rest: string)
    ensures Contains(" hora" + mid + "min" + rest, "min")
  {
    var head := " hora" + mid;
    var tail := head + "min" + rest;
    assert tail[|head|..][..3] == "min";
    ContainsAt(tail, "min", |head|);
  }

  lemma MixedSpelling()
    ensures Decimal(5) + " hora" + "s e 10 " + "min" + "" == "5 horas e 10 min"
  {
    assert Decimal(5) == "5";
  }

  /** "5 horas e 10 min" reads as 5 minutes, not 300. */
  lemma MinutesTakePrecedenceExample()
    ensures ParseTime("5 horas e 10 min") == 5
  {
    MinutesTakePrecedence(5, "s e 10 ", "");
    MixedSpelling();
  }

  lemma SortThree<T>(a: T, b: T, c: T, le: (T, T) -> bool)
    requires le(b, c) && !le(a, b) && !le(a, c)
    ensures Sort([a, b, c], le) == [b, c, a]
  {
    assert [a, b, c][1..] == [b, c] && [b, c][1..] == [c];
    assert Sort([c], le) == [c];
    assert Sort([b, c], le) == [b, c];
    assert Insert(a, [c], le) == [c, a];
  }

  /** Sorting [45, 95, 65] by score descending gives [95, 65, 45]. */
  lemma ScoreDescExample(a: Lead, b: Lead, c: Lead, nameLe: (string, string) -> bool)
    requires a.score == 45 && b.score == 95 && c.score == 65
    ensures View([a, b, c], All, ScoreDesc, nameLe) == [b, c, a]
  {
    var le := Before(ScoreDesc, nameLe);
    assert le(b, c) && !le(a, b) && !le(a, c);
    SortThree(a, b, c, le);
  }

  /** The page would call `parseTime` on a missing `lastContact` (and throw)
      exactly when a date sort compares two or more leads and one of them has
      no description. */
  predicate DateSortThrows(leads: seq<Lead>, f: StatusFilter, sortBy: SortOption) {
    var shown := Filter(leads, f);
    sortBy.IsDate() && |shown| >= 2 && exists l :: l in shown && l.lastContact.None?
  }

  /** `filteredAndSortedLeads`: filter a copy of the leads by status, then sort it. */
  function View(leads: seq<Lead>, f: StatusFilter, sortBy: SortOption, nameLe: (string, string) -> bool): (r: seq<Lead>)
    requires !DateSortThrows(leads, f, sortBy)
    ensures multiset(r) == multiset(Filter(leads, f))
    ensures forall l :: l in r <==> l in leads && f.Admits(l.status)
    ensures TotalPreorder(nameLe) ==> SortedBy(r, Before(sortBy, nameLe))
  {
    var r := Sort(Filter(leads, f), Before(sortBy, nameLe));
    assert forall l :: l in r <==> l in multiset(r);
    assert TotalPreorder(nameLe) ==> SortedBy(r, Before(sortBy, nameLe)) by {
      if TotalPreorder(nameLe) {
        BeforeIsPreorder(sortBy, nameLe);
        SortSorted(Filter(leads, f), Before(sortBy, nameLe));
      }
    }
    r
  }

  /** With "all" the view holds every lead, as many times as the list does. */
  lemma ViewAll(leads: seq<Lead>, sortBy: SortOption, nameLe: (string, string) -> bool)
    requires !DateSortThrows(leads, All, sortBy)
    ensures multiset(View(leads, All, sortBy, nameLe)) == multiset(leads)
  {
  }

  /** Leads the chosen order cannot tell apart (equal scores, equal names or
      equal parsed ages) are shown in the order of the list. */
  lemma ViewStable(leads: seq<Lead>, f: StatusFilter, sortBy: SortOption, nameLe: (string, string) -> bool, x: Lead)
    requires !DateSortThrows(leads, f, sortBy)
    requires TotalPreorder(nameLe)
    ensures TiedWith(View(leads, f, sortBy, nameLe), x, Before(sortBy, nameLe))
         == TiedWith(Filter(leads, f), x, Before(sortBy, nameLe))
  {
    BeforeIsPreorder(sortBy, nameLe);
    SortStable(Filter(leads, f), x, Before(sortBy, nameLe));
  }

  /** Two leads with the same score keep their list order under either score sort. */
  lemma EqualScoresKeepOrder(a: Lead, b: Lead, nameLe: (string, string) -> bool)
    requires a.score == b.score
    ensures View([a, b], All, ScoreDesc, nameLe) == [a, b]
    ensures View([a, b], All, ScoreAsc, nameLe) == [a, b]
  {
    assert [a, b][1..] == [b] && [b][1..] == [];
    assert Sort([b], Before(ScoreDesc, nameLe)) == [b];
    assert Sort([b], Before(ScoreAsc, nameLe)) == [b];
  }

  /** Sorting by score descending gives non-increasing scores; ascending, non-decreasing. */
  lemma ViewScoreOrder(leads: seq<Lead>, f: StatusFilter, nameLe: (string, string) -> bool)
    ensures var r := View(leads, f, ScoreDesc, nameLe);
      forall i, j :: 0 <= i < j < |r| ==> r[i].score >= r[j].score
    ensures var r := View(leads, f, ScoreAsc, nameLe);
      forall i, j :: 0 <= i < j < |r| ==> r[i].score <= r[j].score
  {
    KeyOrderIsPreorder(ScoreDesc, nameLe);
    KeyOrderIsPreorder(ScoreAsc, nameLe);
    SortSorted(Filter(leads, f), Before(ScoreDesc, nameLe));
    SortSorted(Filter(leads, f), Before(ScoreAsc, nameLe));
  }

  /** "Most recent" puts smaller parsed ages first, "oldest" larger ones. */
  lemma ViewDateOrder(leads: seq<Lead>, f: StatusFilter, nameLe: (string, string) -> bool)
    requires !DateSortThrows(leads, f, DateDesc)
    ensures var r := View(leads, f, DateDesc, nameLe);
      forall i, j :: 0 <= i < j < |r| ==> Recency(r[i]) <= Recency(r[j])
    ensures var r := View(leads, f, DateAsc, nameLe);
      forall i, j :: 0 <= i < j < |r| ==> Recency(r[i]) >= Recency(r[j])
  {
    SortSorted(Filter(leads, f), Before(DateDesc, nameLe));
    SortSorted(Filter(leads, f), Before(DateAsc, nameLe));
  }

  /** `Math.max(...leads.map(l => l.id), 0)`. */
  function MaxId(leads: seq<Lead>): (m: int)
    ensures m >= 0
    ensures forall l :: l in leads ==> l.id <= m
    ensures m == 0 || exists l :: l in leads && l.id == m
  {
    if leads == [] then 0
    else
      var rest := MaxId(leads[1..]);
      assert forall l :: l in leads ==> l == leads[0] || l in leads[1..];
      if leads[0].id > rest then leads[0].id else rest
  }

  function ScoreSum(leads: seq<Lead>): int {
    if leads == [] then 0 else leads[0].score + ScoreSum(leads[1..])
  }

  function CountStatus(leads: seq<Lead>, s: Status): (n: nat)
    ensures n <= |leads|
  {
    if leads == [] then 0 else (if leads[0].status == s then 1 else 0) + CountStatus(leads[1..], s)
  }

  /** The number of hot leads is the length of the list filtered to quente. */
  lemma {:induction false} CountIsFilterLength(leads: seq<Lead>, s: Status)
    ensures CountStatus(leads, s) == |Filter(leads, Only(s))|
  {
    if leads != [] {
      CountIsFilterLength(leads[1..], s);
    }
  }

  /** `Math.round(sum / n)` for n > 0: the integer nearest to sum / n, halves
      rounding up (towards +infinity). */
  function RoundedMean(sum: int, n: nat): (r: int)
    requires n > 0
    ensures 2 * sum - n < 2 * n * r <= 2 * sum + n
  {
    (2 * sum + n) / (2 * n)
  }

  /** The stats cards. `avgScore` is `None` for an empty list, where the page
      divides 0 by 0 and shows NaN. */
  datatype Stats = Stats(totalLeads: nat, hotLeads: nat, conversionRate: string, avgScore: Option<int>)

  function StatsOf(leads: seq<Lead>): (st: Stats)
    ensures st.totalLeads == |leads|
    ensures st.hotLeads == |Filter(leads, Only(Quente))| <= st.totalLeads
    ensures st.conversionRate == "32%"
    ensures st.avgScore.None? <==> leads == []
    ensures leads != [] ==>
              2 * ScoreSum(leads) - |leads| < 2 * |leads| * st.avgScore.value <= 2 * ScoreSum(leads) + |leads|
  {
    CountIsFilterLength(leads, Quente);
    Stats(|leads|, CountStatus(leads, Quente), "32%",
          if leads == [] then None else Some(RoundedMean(ScoreSum(leads), |leads|)))
  }

  /** Scores between 0 and 100 give an average between 0 and 100. */
  lemma {:induction false} AverageInRange(leads: seq<Lead>)
    requires leads != []
    requires forall l :: l in leads ==> 0 <= l.score <= 100
    ensures 0 <= StatsOf(leads).avgScore.value <= 100
  {
    SumBounds(leads);
    var n, sum := |leads|, ScoreSum(leads);
    var r := StatsOf(leads).avgScore.value;
    assert 2 * n * r <= 2 * sum + n <= 201 * n;
    MulCancel(r, 101, 2 * n);
    assert -2 * n < 2 * sum - n < 2 * n * r;
    MulCancel(-1, r, 2 * n);
  }

  lemma MulCancel(a: int, b: int, n: int)
    requires n > 0 && n * a < n * b
    ensures a < b
  {
    assert n * b - n * a == n * (b - a) > 0;
  }

  lemma {:induction false} SumBounds(leads: seq<Lead>)
    requires forall l :: l in leads ==> 0 <= l.score <= 100
    ensures 0 <= ScoreSum(leads) <= 100 * |leads|
  {
    if leads != [] {
      SumBounds(leads[1..]);
    }
  }
}
