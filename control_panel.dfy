/** The control panel: the question input with its submit check, the model
    selector, and the fixed tables of layouts and refresh intervals. */
module ControlPanel {
  import opened Common

  const DefaultModel := "gpt-3.5-turbo"

  /** The characters `String.prototype.trim` removes: ECMAScript white space
      (tab, vertical tab, form feed, space, no-break space, byte order mark
      and the space separators) and line terminators. */
  predicate IsSpace(c: char)
  {
    || c == '\U{9}' || c == '\U{A}' || c == '\U{B}' || c == '\U{C}' || c == '\U{D}'
    || c == ' ' || c == '\U{A0}' || c == '\U{1680}'
    || ('\U{2000}' <= c <= '\U{200A}')
    || c == '\U{2028}' || c == '\U{2029}' || c == '\U{202F}' || c == '\U{205F}'
    || c == '\U{3000}' || c == '\U{FEFF}'
  }

  /** Every character of `s[lo..hi]` is white space. */
  predicate BlankBetween(s: string, lo: nat, hi: nat)
    requires lo <= hi <= |s|
  {
    forall i :: lo <= i < hi ==> IsSpace(s[i])
  }

  /** Nothing but white space, the empty text included. */
  predicate IsBlank(s: string)
  {
    BlankBetween(s, 0, |s|)
  }

  /** Drops the leading white space. */
  function TrimStart(s: string): (r: string)
    ensures |r| <= |s| && r == s[|s| - |r|..]
    ensures BlankBetween(s, 0, |s| - |r|)
    ensures r == [] || !IsSpace(r[0])
  {
    if s != [] && IsSpace(s[0]) then
      var r := TrimStart(s[1..]);
      assert forall i :: 1 <= i < |s| ==> s[i] == s[1..][i - 1];
      r
    else s
  }

  /** Drops the trailing white space. */
  function TrimEnd(s: string): (r: string)
    ensures |r| <= |s| && r == s[..|r|]
    ensures BlankBetween(s, |r|, |s|)
    ensures r == [] || !IsSpace(r[|r| - 1])
  {
    if s != [] && IsSpace(s[|s| - 1]) then
      var r := TrimEnd(s[..|s| - 1]);
      assert forall i :: 0 <= i < |s| - 1 ==> s[i] == s[..|s| - 1][i];
      r
    else s
  }

  /** `text.trim()`: never longer than the text, and it neither starts nor
      ends with white space. */
  function Trim(s: string): (r: string)
    ensures |r| <= |s|
    ensures r == [] || (!IsSpace(r[0]) && !IsSpace(r[|r| - 1]))
  {
    var t := TrimStart(s);
    var r := TrimEnd(t);
    assert r != [] ==> r[0] == t[0];
    r
  }

  /** What `trim` keeps is the slice of the text that starts where the
      leading white space ends, and everything before it is white space. */
  lemma TrimIsSlice(s: string)
    ensures var a := |s| - |TrimStart(s)|;
            && a + |Trim(s)| <= |s|
            && Trim(s) == s[a..a + |Trim(s)|]
            && BlankBetween(s, 0, a)
  {
    var t := TrimStart(s);
    var r := TrimEnd(t);
    assert t == s[|s| - |t|..] && r == t[..|r|];
  }

  /** Everything after the slice `trim` keeps is white space. */
  lemma TrimDropsTrailingSpace(s: string)
    ensures var a := |s| - |TrimStart(s)|;
            a + |Trim(s)| <= |s| && BlankBetween(s, a + |Trim(s)|, |s|)
  {
    var t := TrimStart(s);
    var r := TrimEnd(t);
    var a := |s| - |t|;
    forall i | a + |r| <= i < |s| ensures IsSpace(s[i]) {
      assert s[i] == t[i - a];
    }
  }

  /** The submit check: the trimmed text is empty exactly when the input is
      blank. */
  lemma {:induction false} TrimEmptyIffBlank(s: string)
    ensures Trim(s) == [] <==> IsBlank(s)
  {
    var t := TrimStart(s);
    if t != [] {
      assert !IsSpace(t[0]);
      assert t[0] == s[|s| - |t|];
      assert TrimEnd(t) != [] by {
        assert IsBlank(t[|TrimEnd(t)|..]);
      }
    } else {
      assert s[..|s|] == s;
    }
  }

  /** Trimming a trimmed text changes nothing. */
  lemma TrimIdempotent(s: string)
    ensures Trim(Trim(s)) == Trim(s)
  {
    var r := Trim(s);
    if r != [] {
      assert TrimStart(r) == r;
    }
  }

  datatype LayoutOption = LayoutOption(id: string, caption: string)
  datatype RefreshOption = RefreshOption(value: int, caption: string)

  const Layouts := [
    LayoutOption("grid-2", "Grid 2x2"),
    LayoutOption("grid-3", "Grid 3x3"),
    LayoutOption("grid-1", "Single Column"),
    LayoutOption("list", "List View")
  ]

  /** Auto-refresh choices, in milliseconds; 0 is manual refresh. */
  const RefreshOptions := [
    RefreshOption(0, "Manual"),
    RefreshOption(30000, "30 seconds"),
    RefreshOption(60000, "1 minute"),
    RefreshOption(300000, "5 minutes"),
    RefreshOption(600000, "10 minutes")
  ]

  /** The layout ids are exactly these four, all distinct, and the
      dashboard's default layout is among them. */
  lemma LayoutIds()
    ensures |Layouts| == 4
    ensures [Layouts[0].id, Layouts[1].id, Layouts[2].id, Layouts[3].id] == ["grid-2", "grid-3", "grid-1", "list"]
    ensures forall i, j :: 0 <= i < j < |Layouts| ==> Layouts[i].id != Layouts[j].id
  {
  }

  /** The refresh choices are exactly these five intervals, in increasing
      order, none negative, and the first one is manual refresh. */
  lemma RefreshValues()
    ensures |RefreshOptions| == 5
    ensures [RefreshOptions[0].value, RefreshOptions[1].value, RefreshOptions[2].value,
             RefreshOptions[3].value, RefreshOptions[4].value] == [0, 30000, 60000, 300000, 600000]
    ensures forall i :: 0 <= i < |RefreshOptions| ==> RefreshOptions[i].value >= 0
    ensures forall i, j :: 0 <= i < j < |RefreshOptions| ==> RefreshOptions[i].value < RefreshOptions[j].value
    ensures RefreshOptions[0] == RefreshOption(0, "Manual")
  {
  }

  /** The call `onAddQuestion(text, model)`. */
  datatype Submission = Submission(text: string, model: string)

  class Panel {
    var question: string
    var model: string

    constructor ()
      ensures question == "" && model == DefaultModel
    {
      question := "";
      model := DefaultModel;
    }

    /** The input's `onChange`. */
    method Type(text: string)
      modifies this`question
      ensures question == text
    {
      question := text;
    }

    /** The model selector's `onChange`. */
    method SelectModel(m: string)
      modifies this`model
      ensures model == m
    {
      model := m;
    }

    /** `handleSubmit`: a blank input submits nothing and stays as it is;
        anything else is submitted once, trimmed, with the selected model,
        and the input is cleared. */
    method HandleSubmit() returns (submitted: Option<Submission>)
      modifies this`question
      ensures IsBlank(old(question)) ==> submitted == None && question == old(question)
      ensures !IsBlank(old(question)) ==>
                submitted == Some(Submission(Trim(old(question)), model)) && question == ""
      ensures submitted.Some? ==> submitted.value.text != ""
    {
      TrimEmptyIffBlank(question);
      var text := Trim(question);
      if text != "" {
        submitted := Some(Submission(text, model));
        question := "";
      } else {
        submitted := None;
      }
    }
  }
}
