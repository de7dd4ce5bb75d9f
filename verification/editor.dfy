/** The editor's three state updaters: set one field, append an empty entry,
    remove an entry by position. Each maps the previous document to the next one. */
module Editor {
  import opened Resume
  import Lists

  /** The templates the editor's selector offers. */
  const OfferedTemplates: seq<string> := ["modern", "classic"]

  /** A field change as the editor's inputs issue it: a personal-info field
      (no index), or one field of the entry at `index` of a list section. */
  datatype Edit =
    | SetPersonal(field: string, value: string)
    | SetEntry(section: ListSection, index: nat, field: string, value: string)

  /** An indexed edit names an entry that exists. */
  predicate Applicable(d: Document, e: Edit)
  {
    e.SetEntry? ==> e.index < |d.Entries(e.section)|
  }

  /** `a` and `b` agree on every field except possibly `f`: the same fields are
      present and each present one holds the same value. */
  ghost predicate AgreeExcept(a: Fields, b: Fields, f: string)
  {
    forall g :: g != f ==> (g in a <==> g in b) && (g in a && g in b ==> a[g] == b[g])
  }

  /** The `handleInputChange` updater. */
  function HandleInputChange(d: Document, e: Edit): (r: Document)
    requires Applicable(d, e)
    // A personal-info edit sets exactly that field; all lists are untouched.
    ensures e.SetPersonal? ==>
      && e.field in r.personalInfo && r.personalInfo[e.field] == e.value
      && AgreeExcept(r.personalInfo, d.personalInfo, e.field)
      && forall s :: r.Entries(s) == d.Entries(s)
    // An indexed edit sets exactly one field of one entry; the list keeps its
    // length, every other entry, and the other sections are untouched.
    ensures e.SetEntry? ==>
      && r.personalInfo == d.personalInfo
      && |r.Entries(e.section)| == |d.Entries(e.section)|
      && e.field in r.Entries(e.section)[e.index]
      && r.Entries(e.section)[e.index][e.field] == e.value
      && AgreeExcept(r.Entries(e.section)[e.index], d.Entries(e.section)[e.index], e.field)
      && (forall j :: 0 <= j < |d.Entries(e.section)| && j != e.index ==>
            r.Entries(e.section)[j] == d.Entries(e.section)[j])
      && (forall s :: s != e.section ==> r.Entries(s) == d.Entries(s))
  {
    match e
    case SetPersonal(f, v) =>
      d.(personalInfo := d.personalInfo[f := v])
    case SetEntry(s, i, f, v) =>
      var xs := d.Entries(s);
      d.WithEntries(s, xs[i := xs[i][f := v]])
  }

  /** The `addItem` updater: appends the empty object `{}`. */
  function AddItem(d: Document, s: ListSection): (r: Document)
    ensures |r.Entries(s)| == |d.Entries(s)| + 1
    ensures r.Entries(s)[..|d.Entries(s)|] == d.Entries(s)
    ensures r.Entries(s)[|d.Entries(s)|] == map[]
    ensures forall f :: Get(r.Entries(s)[|d.Entries(s)|], f) == ""
    ensures forall t :: t != s ==> r.Entries(t) == d.Entries(t)
    ensures r.personalInfo == d.personalInfo
  {
    d.WithEntries(s, d.Entries(s) + [map[]])
  }

  /** The `removeItem` updater: keeps every entry whose position differs from `index`. */
  function RemoveItem(d: Document, s: ListSection, index: int): (r: Document)
    ensures 0 <= index < |d.Entries(s)| ==>
      r.Entries(s) == d.Entries(s)[..index] + d.Entries(s)[index + 1..]
    ensures !(0 <= index < |d.Entries(s)|) ==> r == d
    ensures forall t :: t != s ==> r.Entries(t) == d.Entries(t)
    ensures r.personalInfo == d.personalInfo
  {
    var r := d.WithEntries(s, Lists.WithoutIndex(d.Entries(s), index));
    assert !(0 <= index < |d.Entries(s)|) ==> r == d by {
      if !(0 <= index < |d.Entries(s)|) {
        assert forall t :: r.Entries(t) == d.Entries(t);
        assert r.Entries(Education) == d.Entries(Education);
        assert r.Entries(WorkExperience) == d.Entries(WorkExperience);
        assert r.Entries(Skills) == d.Entries(Skills);
      }
    }
    r
  }

  /** Removing an in-range entry deletes exactly that one: the list shrinks by one,
      entries before it stay in place and entries after it move down by one. */
  lemma RemoveShiftsLaterEntries(d: Document, s: ListSection, index: int)
    requires 0 <= index < |d.Entries(s)|
    ensures |RemoveItem(d, s, index).Entries(s)| == |d.Entries(s)| - 1
    ensures forall j :: 0 <= j < index ==> RemoveItem(d, s, index).Entries(s)[j] == d.Entries(s)[j]
    ensures forall j :: index <= j < |d.Entries(s)| - 1 ==>
      RemoveItem(d, s, index).Entries(s)[j] == d.Entries(s)[j + 1]
  {
  }

  /** Adding an entry and then removing the entry at the old length restores the document. */
  lemma AddThenRemoveRestores(d: Document, s: ListSection)
    ensures RemoveItem(AddItem(d, s), s, |d.Entries(s)|) == d
  {
  }
}
