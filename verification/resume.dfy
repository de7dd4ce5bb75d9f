/** The resume document: one personal-info object plus three ordered lists of entries.
    This is the single value the editor updates, the preview projects and local storage keeps. */
module Resume {

  /** A JavaScript object whose values are strings. Personal info and every list
      entry are such objects; a freshly added entry is the empty object `{}`. */
  type Fields = map<string, string>

  /** What a field reads as: a missing field behaves exactly like the empty string,
      both in the editor's inputs (`edu.institution || ''`) and in the preview. */
  function Get(r: Fields, field: string): string
  {
    if field in r then r[field] else ""
  }

  /** The three list sections of the document. */
  datatype ListSection = Education | WorkExperience | Skills

  /** The four top-level sections. */
  datatype Section = PersonalInfo | List(list: ListSection)

  datatype Document = Document(
    personalInfo: Fields,
    education: seq<Fields>,
    workExperience: seq<Fields>,
    skills: seq<Fields>)
  {
    /** The entries of one list section, `resumeData[section]`. */
    function Entries(s: ListSection): seq<Fields>
    {
      match s
      case Education => education
      case WorkExperience => workExperience
      case Skills => skills
    }

    /** `{ ...resumeData, [section]: xs }`: replaces one list section and keeps everything else. */
    function WithEntries(s: ListSection, xs: seq<Fields>): (d: Document)
      ensures d.Entries(s) == xs
      ensures forall t :: t != s ==> d.Entries(t) == Entries(t)
      ensures d.personalInfo == personalInfo
    {
      match s
      case Education => this.(education := xs)
      case WorkExperience => this.(workExperience := xs)
      case Skills => this.(skills := xs)
    }
  }

  /** The document used when nothing is stored: three empty personal-info fields and no entries. */
  const Skeleton: Document := Document(map["name" := "", "email" := "", "phone" := ""], [], [], [])

  /** Every field of the skeleton reads as empty and every list section is empty. */
  lemma SkeletonIsEmpty()
    ensures forall f :: Get(Skeleton.personalInfo, f) == ""
    ensures forall s :: Skeleton.Entries(s) == []
    ensures Skeleton.personalInfo.Keys == {"name", "email", "phone"}
  {
  }
}

/** An optional value, used where the source yields `undefined`. */
module Optional {
  datatype Option<+T> = None | Some(value: T)
}

/** Sequence operations the updaters are built from. */
module Lists {

  /** `xs.filter((_, i) => i !== index)`: keeps every element whose position differs
      from `index`. Any `index`, including a negative or too large one, is accepted. */
  function WithoutIndex<T>(xs: seq<T>, index: int): (r: seq<T>)
    ensures 0 <= index < |xs| ==> r == xs[..index] + xs[index + 1..]
    ensures !(0 <= index < |xs|) ==> r == xs
    decreases |xs|
  {
    if |xs| == 0 then []
    else
      var last := |xs| - 1;
      var kept := WithoutIndex(xs[..last], index);
      if last == index then kept
      else
        assert 0 <= index < last ==>
          xs[..last][..index] == xs[..index] && xs[..last][index + 1..] + [xs[last]] == xs[index + 1..];
        assert xs[..last] + [xs[last]] == xs;
        kept + [xs[last]]
  }

  /** Appending one element and then filtering out its position gives back the original list. */
  lemma AppendThenRemoveLast<T>(xs: seq<T>, x: T)
    ensures WithoutIndex(xs + [x], |xs|) == xs
  {
    assert (xs + [x])[..|xs|] == xs;
  }
}
