/** The completeness ("ATS") score the editor shows: ten points per filled
    personal-info field and per list entry, capped at 100. */
module AtsScore {
  import opened Resume
  import opened Editor

  const PointsPerItem := 10
  const MaxScore := 100

  /** The sections in the order the score visits them. */
  const Sections: seq<Section> := [PersonalInfo, List(Education), List(WorkExperience), List(Skills)]

  function Min(a: int, b: int): int
  {
    if a <= b then a else b
  }

  /** The personal-info fields whose value is truthy, i.e. not the empty string. */
  function FilledKeys(r: Fields): set<string>
  {
    set k | k in r && r[k] != ""
  }

  /** `Object.values(r).filter(Boolean).length`. */
  function Filled(r: Fields): nat
  {
    |FilledKeys(r)|
  }

  /** The number of items that earn points: filled personal-info fields plus all entries. */
  function Items(d: Document): nat
  {
    Filled(d.personalInfo) + |d.education| + |d.workExperience| + |d.skills|
  }

  /** The score in closed form: ten points per item, capped at 100.
      It always lies in [0, 100] and is a multiple of ten. */
  function Score(d: Document): (r: nat)
    ensures r <= MaxScore
    ensures r % PointsPerItem == 0
    ensures r == MaxScore || r == PointsPerItem * Items(d)
    ensures r <= PointsPerItem * Items(d)
  {
    Min(MaxScore, PointsPerItem * Items(d))
  }

  /** What one section adds before the cap: an array adds ten per entry,
      the personal-info object ten per truthy value. */
  function Contribution(d: Document, s: Section): nat
  {
    match s
    case List(l) => |d.Entries(l)| * PointsPerItem
    case PersonalInfo => Filled(d.personalInfo) * PointsPerItem
  }

  /** The running total after visiting the sections `ss` in order. */
  function Total(d: Document, ss: seq<Section>): nat
  {
    if |ss| == 0 then 0 else Total(d, ss[..|ss| - 1]) + Contribution(d, ss[|ss| - 1])
  }

  /** Visiting all four sections adds ten points per item. */
  lemma TotalOfAllSections(d: Document)
    ensures Total(d, Sections) == PointsPerItem * Items(d)
  {
    var s3, s2, s1 := Sections[..3], Sections[..2], Sections[..1];
    assert Sections[..|Sections| - 1] == s3 && s3[..2] == s2 && s2[..1] == s1 && s1[..0] == [];
    assert Total(d, s1) == Filled(d.personalInfo) * PointsPerItem;
    assert Total(d, s2) == Total(d, s1) + |d.education| * PointsPerItem;
    assert Total(d, s3) == Total(d, s2) + |d.workExperience| * PointsPerItem;
    assert Total(d, Sections) == Total(d, s3) + |d.skills| * PointsPerItem;
  }

  /** `calculateATSScore`: visits the four sections in order, adds each one's
      contribution, then caps the sum at 100. */
  method CalculateAtsScore(d: Document) returns (score: int)
    ensures score == Score(d)
  {
    score := 0;
    var k := 0;
    while k < |Sections|
      invariant 0 <= k <= |Sections|
      invariant score == Total(d, Sections[..k])
    {
      assert Sections[..k + 1][..k] == Sections[..k];
      var section := Sections[k];
      match section {
        case List(l) =>
          score := score + |d.Entries(l)| * PointsPerItem;
        case PersonalInfo =>
          score := score + Filled(d.personalInfo) * PointsPerItem;
      }
      k := k + 1;
    }
    assert Sections[..|Sections|] == Sections;
    TotalOfAllSections(d);
    score := Min(MaxScore, score);
  }

  /** Setting one personal-info field changes the filled count by exactly the
      change in that field's truthiness. */
  lemma FilledAfterSet(r: Fields, f: string, v: string)
    ensures Get(r, f) == "" && v != "" ==> Filled(r[f := v]) == Filled(r) + 1
    ensures Get(r, f) != "" && v == "" ==> Filled(r[f := v]) + 1 == Filled(r)
    ensures (Get(r, f) == "") == (v == "") ==> Filled(r[f := v]) == Filled(r)
  {
    var before := FilledKeys(r);
    var after := FilledKeys(r[f := v]);
    var others := before - {f};
    assert after - {f} == others by {
      forall k | k in after - {f} ensures k in others { }
      forall k | k in others ensures k in after - {f} { }
    }
    assert f in before <==> Get(r, f) != "";
    assert f in after <==> v != "";
    SplitAt(before, f);
    SplitAt(after, f);
  }

  /** A finite set is its part without `x`, plus `x` when present. */
  lemma SplitAt(a: set<string>, x: string)
    ensures x in a ==> |a| == |a - {x}| + 1
    ensures x !in a ==> |a| == |a - {x}|
  {
    if x in a {
      assert a == (a - {x}) + {x};
    } else {
      assert a == a - {x};
    }
  }

  /** Editing a field of a list entry never changes the score: lists count only by length. */
  lemma EntryEditKeepsScore(d: Document, e: Edit)
    requires Applicable(d, e) && e.SetEntry?
    ensures Score(HandleInputChange(d, e)) == Score(d)
  {
  }

  /** Filling a previously empty personal-info field adds ten points, up to the cap. */
  lemma FillingFieldRaisesScore(d: Document, f: string, v: string)
    requires Get(d.personalInfo, f) == "" && v != ""
    ensures Score(HandleInputChange(d, SetPersonal(f, v))) == Min(MaxScore, Score(d) + PointsPerItem)
    ensures Score(d) <= Score(HandleInputChange(d, SetPersonal(f, v)))
  {
    FilledAfterSet(d.personalInfo, f, v);
  }

  /** Clearing a filled personal-info field never raises the score. */
  lemma ClearingFieldLowersScore(d: Document, f: string)
    requires Get(d.personalInfo, f) != ""
    ensures Score(HandleInputChange(d, SetPersonal(f, ""))) <= Score(d)
  {
    FilledAfterSet(d.personalInfo, f, "");
  }

  /** Adding an entry adds ten points, up to the cap; in particular it never lowers the score. */
  lemma AddItemRaisesScore(d: Document, s: ListSection)
    ensures Score(AddItem(d, s)) == Min(MaxScore, Score(d) + PointsPerItem)
    ensures Score(d) <= Score(AddItem(d, s))
  {
  }

  /** Removing an entry never raises the score; removing at an out-of-range index leaves it. */
  lemma RemoveItemLowersScore(d: Document, s: ListSection, index: int)
    ensures Score(RemoveItem(d, s, index)) <= Score(d)
    ensures !(0 <= index < |d.Entries(s)|) ==> Score(RemoveItem(d, s, index)) == Score(d)
  {
  }

  /** The empty skeleton scores zero. */
  lemma SkeletonScoresZero()
    ensures Score(Skeleton) == 0
  {
  }

  /** From the skeleton: name and email filled give 20; one skill added and named gives 30. */
  lemma AdaScenario()
    ensures
      var d1 := HandleInputChange(Skeleton, SetPersonal("name", "Ada Lovelace"));
      var d2 := HandleInputChange(d1, SetPersonal("email", "ada@example.com"));
      var d3 := AddItem(d2, Skills);
      var d4 := HandleInputChange(d3, SetEntry(Skills, 0, "name", "Mathematics"));
      Score(d2) == 20 && Score(d4) == 30
  {
    var d1 := HandleInputChange(Skeleton, SetPersonal("name", "Ada Lovelace"));
    SkeletonScoresZero();
    FillingFieldRaisesScore(Skeleton, "name", "Ada Lovelace");
    assert Get(d1.personalInfo, "email") == "";
    var d2 := HandleInputChange(d1, SetPersonal("email", "ada@example.com"));
    FillingFieldRaisesScore(d1, "email", "ada@example.com");
    var d3 := AddItem(d2, Skills);
    AddItemRaisesScore(d2, Skills);
    EntryEditKeepsScore(d3, SetEntry(Skills, 0, "name", "Mathematics"));
  }
}
