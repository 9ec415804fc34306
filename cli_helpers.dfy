/** The command-line option whose use excludes a list of other options
    (vxcube_api/cli_helpers.py, class `Mutex`). */
module CliHelpers {
  import opened Values

  // ---------------------------------------------------------------------------
  // str.strip

  /** Python's `str.isspace` for one character. */
  predicate IsSpace(c: char) {
    c == ' ' || ('\t' <= c <= '\r') || ('\U{1c}' <= c <= '\U{1f}') || c == '\U{85}' || c == '\U{a0}' ||
    c == '\U{1680}' || ('\U{2000}' <= c <= '\U{200a}') || c == '\U{2028}' || c == '\U{2029}' ||
    c == '\U{202f}' || c == '\U{205f}' || c == '\U{3000}'
  }

  /** `s.lstrip()`. */
  function LStrip(s: string): (r: string)
    ensures |r| <= |s|
    decreases |s|
  {
    if s != [] && IsSpace(s[0]) then LStrip(s[1..]) else s
  }

  /** `s.rstrip()`. */
  function RStrip(s: string): (r: string)
    ensures |r| <= |s|
    decreases |s|
  {
    if s != [] && IsSpace(s[|s| - 1]) then RStrip(s[..|s| - 1]) else s
  }

  /** `lstrip` keeps a suffix of the text that does not start with whitespace,
      and everything it cuts off is whitespace. */
  lemma {:induction false} LStripSpec(s: string)
    ensures LStrip(s) == s[|s| - |LStrip(s)|..]
    ensures LStrip(s) != [] ==> !IsSpace(LStrip(s)[0])
    ensures forall k :: 0 <= k < |s| - |LStrip(s)| ==> IsSpace(s[k])
    decreases |s|
  {
    if s != [] && IsSpace(s[0]) {
      LStripSpec(s[1..]);
      assert forall k :: 1 <= k < |s| ==> s[k] == s[1..][k - 1];
    }
  }

  /** `rstrip` keeps a prefix of the text that does not end with whitespace,
      and everything it cuts off is whitespace. */
  lemma {:induction false} RStripSpec(s: string)
    ensures RStrip(s) == s[..|RStrip(s)|]
    ensures RStrip(s) != [] ==> !IsSpace(RStrip(s)[|RStrip(s)| - 1])
    ensures forall k :: |RStrip(s)| <= k < |s| ==> IsSpace(s[k])
    decreases |s|
  {
    if s != [] && IsSpace(s[|s| - 1]) {
      RStripSpec(s[..|s| - 1]);
      assert forall k :: 0 <= k < |s| - 1 ==> s[k] == s[..|s| - 1][k];
    }
  }

  /** `s.strip()`. */
  function Strip(s: string): string {
    RStrip(LStrip(s))
  }

  /** Where the text kept by `strip` starts in `s`. */
  function StripFrom(s: string): nat {
    |s| - |LStrip(s)|
  }

  /** Where the text kept by `strip` ends in `s`. */
  function StripTo(s: string): nat {
    StripFrom(s) + |Strip(s)|
  }

  /** The stripped text is the slice of `s` left when the leading and the
      trailing whitespace are cut off, and it neither starts nor ends with
      whitespace. */
  lemma {:induction false} StripSpec(s: string)
    ensures StripFrom(s) <= StripTo(s) <= |s|
    ensures Strip(s) == s[StripFrom(s)..StripTo(s)]
    ensures forall k :: 0 <= k < StripFrom(s) ==> IsSpace(s[k])
    ensures forall k :: StripTo(s) <= k < |s| ==> IsSpace(s[k])
    ensures Strip(s) != [] ==> !IsSpace(Strip(s)[0]) && !IsSpace(Strip(s)[|Strip(s)| - 1])
  {
    StripSlice(s);
    StripCuts(s);
    StripEnds(s);
  }

  /** The stripped text is a slice of the text. */
  lemma {:induction false} StripSlice(s: string)
    ensures StripFrom(s) <= StripTo(s) <= |s|
    ensures Strip(s) == s[StripFrom(s)..StripTo(s)]
  {
    var l := LStrip(s);
    var r := RStrip(l);
    var i := |s| - |l|;
    LStripSpec(s);
    RStripSpec(l);
    assert StripFrom(s) == i && Strip(s) == r && StripTo(s) == i + |r|;
    SliceOfSuffix(s, i, |r|);
  }

  /** What `strip` cuts off at either end is whitespace. */
  lemma {:induction false} StripCuts(s: string)
    ensures forall k :: 0 <= k < StripFrom(s) ==> IsSpace(s[k])
    ensures forall k :: StripTo(s) <= k < |s| ==> IsSpace(s[k])
  {
    var l := LStrip(s);
    LStripSpec(s);
    RStripSpec(l);
    ShiftedSpaces(s, l, |s| - |l|, |RStrip(l)|);
  }

  /** The stripped text neither starts nor ends with whitespace. */
  lemma {:induction false} StripEnds(s: string)
    ensures Strip(s) != [] ==> !IsSpace(Strip(s)[0]) && !IsSpace(Strip(s)[|Strip(s)| - 1])
  {
    var l := LStrip(s);
    var r := RStrip(l);
    LStripSpec(s);
    RStripSpec(l);
    if r != [] {
      assert r[0] == l[0];
    }
  }

  /** Whitespace at the end of a suffix is whitespace at the end of the text. */
  lemma ShiftedSpaces(s: string, l: string, i: nat, m: nat)
    requires i + |l| == |s| && l == s[i..] && m <= |l|
    requires forall k :: m <= k < |l| ==> IsSpace(l[k])
    ensures forall k :: i + m <= k < |s| ==> IsSpace(s[k])
  {
    forall k | i + m <= k < |s| ensures IsSpace(s[k]) {
      assert s[k] == l[k - i];
    }
  }

  /** A prefix of a suffix is a slice. */
  lemma SliceOfSuffix(s: string, i: nat, m: nat)
    requires i + m <= |s|
    ensures s[i..][..m] == s[i..i + m]
  {
  }

  /** Leading whitespace of `s` goes; text after it that starts and ends with a
      non-space is kept whole. */
  lemma {:induction false} StripAppend(s: string, t: string)
    requires t != [] && !IsSpace(t[0]) && !IsSpace(t[|t| - 1])
    ensures Strip(s + t) == LStrip(s) + t
    decreases |s|
  {
    if s == [] {
      assert s + t == t;
    } else if IsSpace(s[0]) {
      assert (s + t)[1..] == s[1..] + t;
      StripAppend(s[1..], t);
    } else {
      var u := s + t;
      assert u[|u| - 1] == t[|t| - 1];
    }
  }

  // ---------------------------------------------------------------------------
  // Mutex.__init__

  /** The note appended to the help of an option excluding `names`. */
  function ExclusiveNote(names: seq<string>): string {
    "Option is mutually exclusive with [" + Join(", ", names) + "]"
  }

  /** The help text the option is given. */
  function HelpText(orig: string, names: seq<string>): string {
    Strip(orig + ExclusiveNote(names))
  }

  /** The original help loses its leading whitespace and is followed by the note
      listing the excluded options between brackets. */
  lemma {:induction false} HelpTextSpec(orig: string, names: seq<string>)
    ensures HelpText(orig, names) == LStrip(orig) + ExclusiveNote(names)
  {
    var t := ExclusiveNote(names);
    var head := "Option is mutually exclusive with [";
    assert t[0] == head[0] == 'O';
    assert t[|t| - 1] == ']';
    StripAppend(orig, t);
  }

  lemma {:induction false} HelpTextExample()
    ensures HelpText("", ["md5", "sha1"]) == "Option is mutually exclusive with [md5, sha1]"
  {
    HelpTextSpec("", ["md5", "sha1"]);
    JoinExample();
    assert LStrip("") == "";
  }

  lemma {:induction false} JoinExample()
    ensures Join(", ", ["md5", "sha1"]) == "md5, sha1"
  {
    assert ["md5", "sha1"][..1] == ["md5"];
  }

  /** The strings of a list of values, None when one is not a string (`", ".join`
      refuses it). */
  function StrItems(vs: seq<Value>): (r: Option<seq<string>>)
    ensures r.Some? <==> forall k :: 0 <= k < |vs| ==> vs[k].Str?
    ensures r.Some? ==> |r.value| == |vs| && forall k :: 0 <= k < |vs| ==> r.value[k] == vs[k].s
    decreases |vs|
  {
    if vs == [] then Some([])
    else
      match StrItems(vs[..|vs| - 1])
      case None => None
      case Some(init) =>
        if vs[|vs| - 1].Str? then Some(init + [vs[|vs| - 1].s]) else None
  }

  /** What the option keeps of its keyword arguments. */
  datatype MutexConfig = MutexConfig(notRequiredIf: seq<string>, help: string, prompt: Value)

  /** `Mutex.__init__` on its keyword arguments: the excluded options are popped
      (a missing or empty list is an error), joined into the help text, and the
      rest goes to the option. */
  function MutexArgs(kwargs: Entries): (r: Result<MutexConfig>)
    ensures Lookup(kwargs, "not_required_if").None? ==> r == Err(KeyError("not_required_if"))
    ensures Lookup(kwargs, "not_required_if").Some? && !Truthy(Lookup(kwargs, "not_required_if").value) ==>
              r == Err(UsageError("'not_required_if' parameter is required"))
  {
    match Lookup(kwargs, "not_required_if")
    case None => Err(KeyError("not_required_if"))
    case Some(v) =>
      if !Truthy(v) then Err(UsageError("'not_required_if' parameter is required"))
      else
        match Iterate(v)
        case Err(_) => Err(TypeError("can only join an iterable"))
        case Ok(items) =>
          match StrItems(items)
          case None => Err(TypeError("sequence item: expected str instance"))
          case Some(names) =>
            var rest := RemoveKey(kwargs, "not_required_if");
            Ok(MutexConfig(names, HelpText(PyStr(Get(rest, "help", Str(""))), names), Get(rest, "prompt", Null)))
  }

  /** An option that is made excludes at least one option, named by strings in
      the order given, and its help is the original help followed by the note
      (that a non-empty list of names is accepted is `MutexArgsOfNames`). */
  lemma {:induction false} MutexArgsSpec(kwargs: Entries)
    ensures MutexArgs(kwargs).Ok? ==>
      var c := MutexArgs(kwargs).value;
      var v := Lookup(kwargs, "not_required_if").value;
      && |c.notRequiredIf| > 0
      && (v.List? ==> |c.notRequiredIf| == |v.items| &&
                      forall k :: 0 <= k < |v.items| ==> v.items[k] == Str(c.notRequiredIf[k]))
      && c.help == LStrip(PyStr(Get(kwargs, "help", Str("")))) + ExclusiveNote(c.notRequiredIf)
      && c.prompt == Get(kwargs, "prompt", Null)
  {
    if MutexArgs(kwargs).Ok? {
      MutexArgsShape(kwargs);
      var names := MutexArgs(kwargs).value.notRequiredIf;
      HelpTextSpec(PyStr(Get(kwargs, "help", Str(""))), names);
    }
  }

  /** The pieces of an accepted option: the names are the strings visited in the
      list, at least one of them, and the help and prompt come from the caller. */
  lemma {:induction false} MutexArgsShape(kwargs: Entries)
    requires MutexArgs(kwargs).Ok?
    ensures var v := Lookup(kwargs, "not_required_if").value;
      && Iterate(v).Ok? && StrItems(Iterate(v).value).Some?
      && |StrItems(Iterate(v).value).value| > 0
      && MutexArgs(kwargs).value.notRequiredIf == StrItems(Iterate(v).value).value
      && MutexArgs(kwargs).value.help ==
           HelpText(PyStr(Get(kwargs, "help", Str(""))), MutexArgs(kwargs).value.notRequiredIf)
      && MutexArgs(kwargs).value.prompt == Get(kwargs, "prompt", Null)
  {
    var v := Lookup(kwargs, "not_required_if").value;
    var rest := RemoveKey(kwargs, "not_required_if");
    assert Get(rest, "help", Str("")) == Get(kwargs, "help", Str(""));
    assert Get(rest, "prompt", Null) == Get(kwargs, "prompt", Null);
    TruthyIterate(v);
  }

  /** A non-empty list of option names is accepted as it is. */
  lemma {:induction false} MutexArgsOfNames(kwargs: Entries, names: seq<string>)
    requires |names| > 0
    requires Lookup(kwargs, "not_required_if") == Some(List(seq(|names|, k requires 0 <= k < |names| => Str(names[k]))))
    ensures MutexArgs(kwargs).Ok? && MutexArgs(kwargs).value.notRequiredIf == names
  {
    var items := seq(|names|, k requires 0 <= k < |names| => Str(names[k]));
    assert items[0] == Str(names[0]);
    assert StrItems(items).Some?;
    assert StrItems(items).value == names;
  }

  // ---------------------------------------------------------------------------
  // Mutex.handle_parse_result

  /** An option counts as given when it was parsed or appears among the
      remaining arguments. */
  predicate Given(opt: string, opts: set<string>, args: seq<string>) {
    opt in opts || opt in args
  }

  /** The first excluded option that was given, from position `from` on. */
  function FirstGiven(names: seq<string>, opts: set<string>, args: seq<string>, from: nat): (r: Option<nat>)
    requires from <= |names|
    ensures r.Some? ==> from <= r.value < |names|
    decreases |names| - from
  {
    if from == |names| then None
    else if Given(names[from], opts, args) then Some(from)
    else FirstGiven(names, opts, args, from + 1)
  }

  lemma {:induction false} FirstGivenSpec(names: seq<string>, opts: set<string>, args: seq<string>, from: nat)
    requires from <= |names|
    ensures FirstGiven(names, opts, args, from).None? <==>
            forall j :: from <= j < |names| ==> !Given(names[j], opts, args)
    ensures FirstGiven(names, opts, args, from).Some? ==>
            var i := FirstGiven(names, opts, args, from).value;
            Given(names[i], opts, args) && forall j :: from <= j < i ==> !Given(names[j], opts, args)
    decreases |names| - from
  {
    if from < |names| && !Given(names[from], opts, args) {
      FirstGivenSpec(names, opts, args, from + 1);
    }
  }

  /** What checking the parse result does: given together with an excluded
      option, the option is refused, naming the first excluded option given;
      given without it while an excluded option is given, it stops prompting. */
  function ParseChecked(name: string, names: seq<string>, opts: set<string>, args: seq<string>,
                        prompt: Value): (Value, Option<Exception>)
  {
    match FirstGiven(names, opts, args, 0)
    case None => (prompt, None)
    case Some(i) =>
      if name in opts then (prompt, Some(UsageError("Illegal usage: '" + name + "' is mutually exclusive with " + names[i])))
      else (Null, None)
  }

  /** The option is refused exactly when it is given together with one of the
      options it excludes, and stops prompting exactly when it is not given but
      one of those is. */
  lemma {:induction false} ParseCheckedSpec(name: string, names: seq<string>, opts: set<string>, args: seq<string>, prompt: Value)
    ensures var (p, e) := ParseChecked(name, names, opts, args, prompt);
      && (e.Some? <==> name in opts && exists j :: 0 <= j < |names| && Given(names[j], opts, args))
      && (e.Some? ==> exists j :: 0 <= j < |names| && Given(names[j], opts, args) &&
                        (forall m :: 0 <= m < j ==> !Given(names[m], opts, args)) &&
                        e.value == UsageError("Illegal usage: '" + name + "' is mutually exclusive with " + names[j]))
      && (p != prompt ==> name !in opts && p == Null)
      && (name !in opts && (exists j :: 0 <= j < |names| && Given(names[j], opts, args)) ==> p == Null)
      && ((forall j :: 0 <= j < |names| ==> !Given(names[j], opts, args)) ==> p == prompt && e.None?)
  {
    FirstGivenSpec(names, opts, args, 0);
  }

  /** `download sample --id 1 --md5 m`: the id option refuses the md5 option;
      given alone, the md5 option stops the id option from prompting. */
  lemma {:induction false} ParseCheckedExample(prompt: Value)
    ensures ParseChecked("id", ["md5", "sha1", "sha256"], {"id", "md5"}, [], prompt) ==
            (prompt, Some(UsageError("Illegal usage: 'id' is mutually exclusive with md5")))
    ensures ParseChecked("id", ["md5", "sha1", "sha256"], {"md5"}, [], prompt) == (Null, None)
  {
    ParseCheckedClash(prompt);
    ParseCheckedAlone(prompt);
  }

  lemma {:induction false} ParseCheckedClash(prompt: Value)
    ensures ParseChecked("id", ["md5", "sha1", "sha256"], {"id", "md5"}, [], prompt) ==
            (prompt, Some(UsageError("Illegal usage: 'id' is mutually exclusive with md5")))
  {
    assert FirstGiven(["md5", "sha1", "sha256"], {"id", "md5"}, [], 0) == Some(0);
    ClashText();
  }

  /** The usage error naming `id` and `md5`, spelled out. */
  lemma ClashText()
    ensures "Illegal usage: '" + "id" + "' is mutually exclusive with " + "md5"
         == "Illegal usage: 'id' is mutually exclusive with md5"
  {
    assert "Illegal usage: '" + "id" == "Illegal usage: 'id";
    assert "Illegal usage: 'id" + "' is mutually exclusive with " == "Illegal usage: 'id' is mutually exclusive with ";
    assert "Illegal usage: 'id' is mutually exclusive with " + "md5"
        == "Illegal usage: 'id' is mutually exclusive with md5";
  }

  lemma {:induction false} ParseCheckedAlone(prompt: Value)
    ensures ParseChecked("id", ["md5", "sha1", "sha256"], {"md5"}, [], prompt) == (Null, None)
  {
    assert FirstGiven(["md5", "sha1", "sha256"], {"md5"}, [], 0) == Some(0);
  }

  class Mutex {
    var name: string
    var notRequiredIf: seq<string>
    var help: string
    var prompt: Value

    constructor (name: string, c: MutexConfig)
      ensures this.name == name && notRequiredIf == c.notRequiredIf && help == c.help && prompt == c.prompt
    {
      this.name := name;
      notRequiredIf := c.notRequiredIf;
      help := c.help;
      prompt := c.prompt;
    }

    /** `Mutex(name, **kwargs)`. */
    static method Create(name: string, kwargs: Entries) returns (r: Result<Mutex>)
      ensures r.Ok? <==> MutexArgs(kwargs).Ok?
      ensures r.Err? ==> r.error == MutexArgs(kwargs).error
      ensures r.Ok? ==> fresh(r.value) && r.value.name == name &&
                        MutexConfig(r.value.notRequiredIf, r.value.help, r.value.prompt) == MutexArgs(kwargs).value
    {
      var c := MutexArgs(kwargs);
      if c.Err? {
        return Err(c.error);
      }
      var m := new Mutex(name, c.value);
      return Ok(m);
    }

    /** `handle_parse_result`, up to handing over to the option's own handling. */
    method HandleParseResult(opts: set<string>, args: seq<string>) returns (error: Option<Exception>)
      modifies this
      ensures name == old(name) && notRequiredIf == old(notRequiredIf) && help == old(help)
      ensures (prompt, error) == ParseChecked(name, notRequiredIf, opts, args, old(prompt))
    {
      var current := name in opts;
      var i := 0;
      while i < |notRequiredIf|
        invariant 0 <= i <= |notRequiredIf|
        invariant name == old(name) && notRequiredIf == old(notRequiredIf) && help == old(help)
        invariant current ==> prompt == old(prompt) && forall j :: 0 <= j < i ==> !Given(notRequiredIf[j], opts, args)
        invariant !current ==> prompt == if exists j :: 0 <= j < i && Given(notRequiredIf[j], opts, args)
                                         then Null else old(prompt)
      {
        var opt := notRequiredIf[i];
        if opt in opts || opt in args {
          if current {
            FirstGivenSpec(notRequiredIf, opts, args, 0);
            FirstGivenAt(notRequiredIf, opts, args, i);
            return Some(UsageError("Illegal usage: '" + name + "' is mutually exclusive with " + opt));
          }
          prompt := Null;
        }
        i := i + 1;
      }
      FirstGivenSpec(notRequiredIf, opts, args, 0);
      assert ParseChecked(name, notRequiredIf, opts, args, old(prompt)) == (prompt, None);
      return None;
    }
  }

  /** The first given option is the one before which none is given. */
  lemma {:induction false} FirstGivenAt(names: seq<string>, opts: set<string>, args: seq<string>, i: nat)
    requires i < |names| && Given(names[i], opts, args)
    requires forall j :: 0 <= j < i ==> !Given(names[j], opts, args)
    ensures FirstGiven(names, opts, args, 0) == Some(i)
  {
    FirstGivenSpec(names, opts, args, 0);
  }
}
