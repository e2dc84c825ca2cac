/** The interview Q&A page: records with a category and a level, two select
    boxes whose choice "全部" ("all") lifts that criterion, and the list of
    records shown for a pair of choices. */
module Interview {

  datatype QA = QA(category: string, question: string, answer: string, level: string)

  /** The select-box choice that imposes no constraint. */
  const All: string := "全部"

  /** The category select box offers "all" and every category of the records,
      and nothing else. */
  function CategoryChoices(items: seq<QA>): (r: set<string>)
    ensures All in r
    ensures forall k :: 0 <= k < |items| ==> items[k].category in r
    ensures forall c :: c in r ==> c == All || exists k :: 0 <= k < |items| && items[k].category == c
  {
    {All} + set x | x in items :: x.category
  }

  /** The first comprehension: keep the records of category `cat`, in order. */
  function KeepCategory(items: seq<QA>, cat: string): seq<QA> {
    if items == [] then []
    else (if items[0].category == cat then [items[0]] else []) + KeepCategory(items[1..], cat)
  }

  /** The second comprehension: keep the records of level `level`, in order. */
  function KeepLevel(items: seq<QA>, level: string): seq<QA> {
    if items == [] then []
    else (if items[0].level == level then [items[0]] else []) + KeepLevel(items[1..], level)
  }

  /** The list shown: filtered by category unless "all" is chosen, then by
      level unless "all" is chosen. */
  function Filtered(items: seq<QA>, cat: string, level: string): seq<QA> {
    var byCategory := if cat != All then KeepCategory(items, cat) else items;
    if level != All then KeepLevel(byCategory, level) else byCategory
  }

  /** What a record must satisfy to be shown for a pair of choices. */
  predicate Matches(x: QA, cat: string, level: string) {
    (cat == All || x.category == cat) && (level == All || x.level == level)
  }

  /** Reference definition: a single in-order pass keeping the matching records. */
  function Select(items: seq<QA>, cat: string, level: string): seq<QA> {
    if items == [] then []
    else (if Matches(items[0], cat, level) then [items[0]] else []) + Select(items[1..], cat, level)
  }

  /** `a` is `b` with some records dropped and the rest kept in order. */
  predicate IsSubsequence(a: seq<QA>, b: seq<QA>)
    decreases |b|
  {
    if a == [] then true
    else if b == [] then false
    else (a[0] == b[0] && IsSubsequence(a[1..], b[1..])) || IsSubsequence(a, b[1..])
  }

  lemma {:induction false} KeepCategoryIsSelect(items: seq<QA>, cat: string)
    requires cat != All
    ensures KeepCategory(items, cat) == Select(items, cat, All)
  {
    if items != [] {
      KeepCategoryIsSelect(items[1..], cat);
    }
  }

  lemma {:induction false} KeepLevelAfterSelect(items: seq<QA>, cat: string, level: string)
    requires level != All
    ensures KeepLevel(Select(items, cat, All), level) == Select(items, cat, level)
  {
    if items != [] {
      KeepLevelAfterSelect(items[1..], cat, level);
      var head := if Matches(items[0], cat, All) then [items[0]] else [];
      assert Select(items, cat, All) == head + Select(items[1..], cat, All);
      KeepLevelAppend(head, Select(items[1..], cat, All), level);
    }
  }

  lemma {:induction false} KeepLevelAppend(a: seq<QA>, b: seq<QA>, level: string)
    ensures KeepLevel(a + b, level) == KeepLevel(a, level) + KeepLevel(b, level)
  {
    if a != [] {
      assert (a + b)[1..] == a[1..] + b;
      KeepLevelAppend(a[1..], b, level);
    } else {
      assert a + b == b;
    }
  }

  lemma {:induction false} SelectAllIsIdentity(items: seq<QA>)
    ensures Select(items, All, All) == items
  {
    if items != [] {
      SelectAllIsIdentity(items[1..]);
    }
  }

  /** The two successive comprehensions show exactly the records the single
      matching pass keeps. */
  lemma FilteredIsSelect(items: seq<QA>, cat: string, level: string)
    ensures Filtered(items, cat, level) == Select(items, cat, level)
  {
    if cat == All {
      SelectAllIsIdentity(items);
    } else {
      KeepCategoryIsSelect(items, cat);
    }
    if level != All {
      KeepLevelAfterSelect(items, cat, level);
    }
  }

  /** A record is shown exactly when it is one of the records and matches both choices. */
  lemma {:induction false} SelectMembers(items: seq<QA>, cat: string, level: string, x: QA)
    ensures x in Select(items, cat, level) <==> x in items && Matches(x, cat, level)
  {
    if items != [] {
      SelectMembers(items[1..], cat, level, x);
      assert items == [items[0]] + items[1..];
    }
  }

  /** What is shown keeps the records' order: it is a subsequence of all records. */
  lemma {:induction false} SelectIsSubsequence(items: seq<QA>, cat: string, level: string)
    ensures IsSubsequence(Select(items, cat, level), items)
  {
    if items != [] {
      SelectIsSubsequence(items[1..], cat, level);
      var rest := Select(items[1..], cat, level);
      if Matches(items[0], cat, level) {
        assert Select(items, cat, level) == [items[0]] + rest;
        assert ([items[0]] + rest)[1..] == rest;
      } else {
        assert Select(items, cat, level) == rest;
        assert IsSubsequence(rest, items[1..]);
      }
    }
  }

  /** The page's filter: its result is the in-order list of matching records. */
  lemma FilteredSpec(items: seq<QA>, cat: string, level: string)
    ensures IsSubsequence(Filtered(items, cat, level), items)
    ensures forall x :: x in Filtered(items, cat, level) <==> x in items && Matches(x, cat, level)
    ensures cat == All && level == All ==> Filtered(items, cat, level) == items
  {
    FilteredIsSelect(items, cat, level);
    SelectIsSubsequence(items, cat, level);
    forall x
      ensures x in Filtered(items, cat, level) <==> x in items && Matches(x, cat, level)
    {
      SelectMembers(items, cat, level, x);
    }
  }

  /** Every category the select box offers shows at least one record when the
      level is left at "all". */
  lemma OfferedCategoryIsNonEmpty(items: seq<QA>, cat: string)
    requires cat in CategoryChoices(items) && items != []
    ensures Filtered(items, cat, All) != []
  {
    var x: QA;
    if cat == All {
      x := items[0];
    } else {
      var k :| 0 <= k < |items| && items[k].category == cat;
      x := items[k];
    }
    FilteredSpec(items, cat, All);
    assert x in Filtered(items, cat, All);
  }
}
