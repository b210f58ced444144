/** The option entity: its kinds and values, the conversion each kind applies
    to the tokens it is saved with, and the `Option` object that binds a
    caller-owned destination cell and keeps the invocation state. */
module Options {
  import opened Errors
  import opened Convert

  /** The value shapes an option can have. */
  datatype Kind =
    | BoolType
    | StringType
    | IntType
    | StringRepeatType
    | IntRepeatType
    | StringMapType

  /** A value of one of the kinds (what Go's `Value()` returns as `interface{}`). */
  datatype TypedValue =
    | BoolValue(b: bool)
    | StringValue(s: string)
    | IntValue(i: int)
    | StringSliceValue(ss: seq<string>)
    | IntSliceValue(ii: seq<int>)
    | StringMapValue(m: map<string, string>)

  function KindOf(v: TypedValue): Kind
  {
    match v
    case BoolValue(_) => BoolType
    case StringValue(_) => StringType
    case IntValue(_) => IntType
    case StringSliceValue(_) => StringRepeatType
    case IntSliceValue(_) => IntRepeatType
    case StringMapValue(_) => StringMapType
  }

  /** The zero value of a kind: false, "", 0, empty slice, empty map. */
  function Zero(kind: Kind): (v: TypedValue)
    ensures KindOf(v) == kind
  {
    match kind
    case BoolType => BoolValue(false)
    case StringType => StringValue("")
    case IntType => IntValue(0)
    case StringRepeatType => StringSliceValue([])
    case IntRepeatType => IntSliceValue([])
    case StringMapType => StringMapValue(map[])
  }

  /** The token a single-valued kind reads; a call without tokens reads "". */
  function FirstToken(tokens: seq<string>): string
  {
    if tokens == [] then "" else tokens[0]
  }

  /** The key a map entry is stored under. */
  function MapKey(key: string, keysToLower: bool): string
  {
    if keysToLower then ToLower(key) else key
  }

  /** What one `Save(tokens...)` produces from the current destination value:
      the new value, or the error that leaves everything as it was. */
  function Saved(kind: Kind, current: TypedValue, tokens: seq<string>, calledAs: string, keysToLower: bool): (r: Result<TypedValue>)
    requires KindOf(current) == kind
    ensures r.Ok? ==> KindOf(r.value) == kind
  {
    match kind
    case BoolType => Ok(BoolValue(!current.b))
    case StringType => Ok(StringValue(FirstToken(tokens)))
    case IntType =>
      (match ParseInt(FirstToken(tokens))
       case Some(n) => Ok(IntValue(n))
       case None => Err(ConvertToInt(calledAs, FirstToken(tokens))))
    case StringRepeatType => Ok(StringSliceValue(current.ss + tokens))
    case IntRepeatType =>
      (match ParseIntList(tokens, calledAs)
       case Ok(xs) => Ok(IntSliceValue(current.ii + xs))
       case Err(e) => Err(e))
    case StringMapType =>
      match SplitKeyValue(FirstToken(tokens))
      case None => Err(ArgumentIsNotKeyValue(calledAs))
      case Some((key, v)) => Ok(StringMapValue(current.m[MapKey(key, keysToLower) := v]))
  }

  // ---------------------------------------------------------------------------
  // Properties of one Save
  // ---------------------------------------------------------------------------

  /** A Save without tokens reads one empty token for the bool, string, int
      and map kinds; a list Save without tokens succeeds and leaves the list
      as it was, while an int list given one empty token fails. */
  lemma SavedNoTokens(kind: Kind, current: TypedValue, calledAs: string, keysToLower: bool)
    requires KindOf(current) == kind
    ensures kind == StringRepeatType || kind == IntRepeatType ==>
      Saved(kind, current, [], calledAs, keysToLower) == Ok(current)
    ensures kind != StringRepeatType && kind != IntRepeatType ==>
      Saved(kind, current, [], calledAs, keysToLower) == Saved(kind, current, [""], calledAs, keysToLower)
    ensures kind == IntRepeatType ==>
      Saved(kind, current, [""], calledAs, keysToLower) == Err(ConvertToInt(calledAs, ""))
  {
    if kind == StringRepeatType {
      assert current.ss + [] == current.ss;
    } else if kind == IntRepeatType {
      assert current.ii + [] == current.ii;
      assert !ContainsDots("");
      ParseIntListSingle("", calledAs);
    }
  }

  /** A bool option ignores its tokens and negates the current value. */
  lemma SavedBoolToggles(b: bool, tokens: seq<string>, calledAs: string, keysToLower: bool)
    ensures Saved(BoolType, BoolValue(b), tokens, calledAs, keysToLower) == Ok(BoolValue(!b))
  {
  }

  /** A string option stores its first token whatever it held before, and the
      empty string for an empty token. */
  lemma SavedStringTakesFirst(s: string, token: string, rest: seq<string>, calledAs: string, keysToLower: bool)
    ensures Saved(StringType, StringValue(s), [token] + rest, calledAs, keysToLower) == Ok(StringValue(token))
  {
  }

  /** An int option stores the integer its token spells, replacing any preset,
      and reports the alias it was called as with the raw token otherwise. */
  lemma SavedIntParses(current: int, token: string, rest: seq<string>, calledAs: string, keysToLower: bool)
    ensures ParseInt(token).Some? ==>
      Saved(IntType, IntValue(current), [token] + rest, calledAs, keysToLower) == Ok(IntValue(ParseInt(token).value))
    ensures ParseInt(token).None? ==>
      Saved(IntType, IntValue(current), [token] + rest, calledAs, keysToLower) == Err(ConvertToInt(calledAs, token))
  {
  }

  lemma SavedIntRoundTrip(current: int, n: int, calledAs: string, keysToLower: bool)
    requires InIntRange(n)
    ensures Saved(IntType, IntValue(current), [FormatInt(n)], calledAs, keysToLower) == Ok(IntValue(n))
  {
    ParseFormatRoundTrip(n);
  }

  /** An int-list token "lo..hi" appends lo, lo+1, ..., hi after what the list
      held; a reversed one is a conversion error naming the raw token. */
  lemma SavedIntRange(xs: seq<int>, lo: int, hi: int, calledAs: string, keysToLower: bool)
    requires InIntRange(lo) && InIntRange(hi)
    ensures var token := FormatInt(lo) + ".." + FormatInt(hi);
      Saved(IntRepeatType, IntSliceValue(xs), [token], calledAs, keysToLower) ==
        if lo <= hi then Ok(IntSliceValue(xs + Range(lo, hi))) else Err(ConvertToInt(calledAs, token))
  {
    var token := FormatInt(lo) + ".." + FormatInt(hi);
    if lo <= hi { TokenIntsRange(lo, hi); } else { TokenIntsReversed(lo, hi); }
    ParseIntListSingle(token, calledAs);
  }

  /** A map token "key=value" inserts value under key (lowercased when asked),
      keeping every other entry and the value verbatim. */
  lemma SavedMapEntry(m: map<string, string>, key: string, v: string, rest: seq<string>, calledAs: string, keysToLower: bool)
    requires '=' !in key
    ensures Saved(StringMapType, StringMapValue(m), [key + "=" + v] + rest, calledAs, keysToLower) ==
      Ok(StringMapValue(m[MapKey(key, keysToLower) := v]))
    ensures keysToLower ==> forall i :: 0 <= i < |MapKey(key, keysToLower)| ==> !IsUpper(MapKey(key, keysToLower)[i])
  {
    SplitKeyValueJoin(key, v);
    ToLowerNormalises(key);
  }

  /** A map token without '=' is a structural error. */
  lemma SavedMapNotKeyValue(m: map<string, string>, token: string, rest: seq<string>, calledAs: string, keysToLower: bool)
    requires '=' !in token
    ensures Saved(StringMapType, StringMapValue(m), [token] + rest, calledAs, keysToLower) == Err(ArgumentIsNotKeyValue(calledAs))
  {
  }

  /** The int-list conversion loop of Save: each token in turn is converted
      and its integers appended; the first token that does not convert stops
      the loop with its error. */
  method ConvertIntList(tokens: seq<string>, calledAs: string) returns (r: Result<seq<int>>)
    ensures r == ParseIntList(tokens, calledAs)
  {
    var appended: seq<int> := [];
    var i := 0;
    while i < |tokens|
      invariant 0 <= i <= |tokens|
      invariant ParseIntList(tokens[..i], calledAs) == Ok(appended)
    {
      assert tokens[..i + 1][..i] == tokens[..i];
      match TokenInts(tokens[i]) {
        case None =>
          ParseIntListConcat(tokens[..i + 1], tokens[i + 1..], calledAs);
          assert tokens[..i + 1] + tokens[i + 1..] == tokens;
          return Err(ConvertToInt(calledAs, tokens[i]));
        case Some(xs) =>
          appended := appended + xs;
      }
      i := i + 1;
    }
    assert tokens[..i] == tokens;
    r := Ok(appended);
  }

  // ---------------------------------------------------------------------------
  // Several Saves in a row
  // ---------------------------------------------------------------------------

  /** The outcome of a sequence of `Save` invocations on one option, stopping
      at the first that fails. */
  function SaveAll(kind: Kind, current: TypedValue, calls: seq<seq<string>>, calledAs: string, keysToLower: bool): (r: Result<TypedValue>)
    requires KindOf(current) == kind
    ensures r.Ok? ==> KindOf(r.value) == kind
    decreases |calls|
  {
    if calls == [] then Ok(current)
    else
      match Saved(kind, current, calls[0], calledAs, keysToLower)
      case Err(e) => Err(e)
      case Ok(next) => SaveAll(kind, next, calls[1..], calledAs, keysToLower)
  }

  function Flatten(calls: seq<seq<string>>): seq<string>
  {
    if calls == [] then [] else calls[0] + Flatten(calls[1..])
  }

  /** Starting from b, n Saves of a bool option give b exactly when n is even. */
  lemma {:induction false} BoolToggleParity(b: bool, calls: seq<seq<string>>, calledAs: string, keysToLower: bool)
    ensures SaveAll(BoolType, BoolValue(b), calls, calledAs, keysToLower) ==
      Ok(BoolValue(if |calls| % 2 == 1 then !b else b))
    decreases |calls|
  {
    if calls != [] {
      BoolToggleParity(!b, calls[1..], calledAs, keysToLower);
    }
  }

  /** Repeated Saves of a string-list option accumulate every token in order. */
  lemma {:induction false} StringListAccumulates(ss: seq<string>, calls: seq<seq<string>>, calledAs: string, keysToLower: bool)
    ensures SaveAll(StringRepeatType, StringSliceValue(ss), calls, calledAs, keysToLower) ==
      Ok(StringSliceValue(ss + Flatten(calls)))
    decreases |calls|
  {
    if calls != [] {
      StringListAccumulates(ss + calls[0], calls[1..], calledAs, keysToLower);
      assert ss + calls[0] + Flatten(calls[1..]) == ss + Flatten(calls);
    } else {
      assert ss + [] == ss;
    }
  }

  /** Repeated Saves of an int-list option are one Save of all their tokens:
      the integers accumulate in token order, and the first bad token is the
      error. */
  lemma {:induction false} IntListAccumulates(xs: seq<int>, calls: seq<seq<string>>, calledAs: string, keysToLower: bool)
    ensures var all := ParseIntList(Flatten(calls), calledAs);
      SaveAll(IntRepeatType, IntSliceValue(xs), calls, calledAs, keysToLower) ==
        if all.Ok? then Ok(IntSliceValue(xs + all.value)) else Err(all.error)
    decreases |calls|
  {
    if calls == [] {
      assert xs + [] == xs;
    } else {
      ParseIntListConcat(calls[0], Flatten(calls[1..]), calledAs);
      var first := ParseIntList(calls[0], calledAs);
      if first.Ok? {
        IntListAccumulates(xs + first.value, calls[1..], calledAs, keysToLower);
        var rest := ParseIntList(Flatten(calls[1..]), calledAs);
        if rest.Ok? {
          assert xs + first.value + rest.value == xs + (first.value + rest.value);
        }
      }
    }
  }

  // ---------------------------------------------------------------------------
  // Synopsis
  // ---------------------------------------------------------------------------

  /** The kinds that take more than one argument. */
  predicate IsRepeatKind(kind: Kind)
  {
    kind == StringRepeatType || kind == IntRepeatType || kind == StringMapType
  }

  /** The argument placeholder of a kind. */
  function ArgPlaceholder(kind: Kind): string
  {
    match kind
    case BoolType => ""
    case StringType => "string"
    case StringRepeatType => "string"
    case IntType => "int"
    case IntRepeatType => "int"
    case StringMapType => "key=value"
  }

  /** The usage fragment of an option: "--" and its name, then " <arg>" unless
      it is a bool, where arg is the help argument name or the kind's
      placeholder, then "..." for a repeatable kind with MaxArgs above one. */
  function SynopsisText(name: string, kind: Kind, helpArgName: string, maxArgs: int): (r: string)
    ensures |r| >= |name| + 2 && r[..|name| + 2] == "--" + name
    ensures kind == BoolType <==> r == "--" + name
  {
    var arg := if helpArgName != "" then helpArgName else ArgPlaceholder(kind);
    var argPart := if kind == BoolType then "" else " <" + arg + ">";
    var repeat := if IsRepeatKind(kind) && maxArgs > 1 then "..." else "";
    "--" + name + argPart + repeat
  }

  predicate EndsWithEllipsis(s: string)
  {
    |s| >= 3 && s[|s| - 3..] == "..."
  }

  /** For the kinds other than bool the argument follows "--name" in angle
      brackets, and the ellipsis is there exactly when the kind repeats and
      MaxArgs exceeds one. */
  lemma SynopsisShape(name: string, kind: Kind, helpArgName: string, maxArgs: int)
    ensures kind != BoolType ==>
      var r := SynopsisText(name, kind, helpArgName, maxArgs);
      var arg := if helpArgName != "" then helpArgName else ArgPlaceholder(kind);
      |r| >= |name| + 5 + |arg| && r[|name| + 2..|name| + 5 + |arg|] == " <" + arg + ">" &&
      (EndsWithEllipsis(r) <==> IsRepeatKind(kind) && maxArgs > 1)
  {
    var r := SynopsisText(name, kind, helpArgName, maxArgs);
    if kind != BoolType {
      var arg := if helpArgName != "" then helpArgName else ArgPlaceholder(kind);
      var head := "--" + name + " <" + arg + ">";
      assert r[|name| + 2..|name| + 5 + |arg|] == " <" + arg + ">";
      if !(IsRepeatKind(kind) && maxArgs > 1) {
        assert r == head && r[|r| - 1] == '>';
      } else {
        assert r[|r| - 3..] == "...";
      }
    }
  }

  // ---------------------------------------------------------------------------
  // The Option object
  // ---------------------------------------------------------------------------

  /** A caller-owned variable that an option is bound to (the pointer given to
      a Set*Ptr call). The caller may read and write it at any time. */
  class Cell {
    var contents: TypedValue

    constructor (v: TypedValue)
      ensures contents == v
    {
      contents := v;
    }
  }

  class Option {
    const name: string
    const kind: Kind
    var aliases: seq<string>
    var dest: Cell
    var value: TypedValue        // the last value stored, returned by Value()
    var called: bool
    var calledAs: string
    var isRequired: bool
    var requiredMsg: string
    var description: string
    var helpArgName: string
    var defaultStr: string
    var envVar: string
    var helpSynopsis: string
    var maxArgs: int
    var mapKeysToLower: bool

    /** The last value and the destination have the option's kind, and the
        canonical name is the first alias. */
    ghost predicate Valid()
      reads this, dest
    {
      KindOf(value) == kind && KindOf(dest.contents) == kind &&
      |aliases| > 0 && aliases[0] == name
    }

    /** `New(name, kind)`: aliases [name], the zero value in the last value
        and in a destination of the option's own, everything else zeroed. */
    constructor New(name: string, kind: Kind)
      ensures Valid() && fresh(dest)
      ensures this.name == name && this.kind == kind && aliases == [name]
      ensures value == Zero(kind) && dest.contents == Zero(kind)
      ensures !called && calledAs == "" && !isRequired && requiredMsg == ""
      ensures description == "" && helpArgName == "" && defaultStr == "" && envVar == ""
      ensures helpSynopsis == "" && maxArgs == 0 && !mapKeysToLower
    {
      this.name := name;
      this.kind := kind;
      aliases := [name];
      dest := new Cell(Zero(kind));
      value := Zero(kind);
      called, calledAs := false, "";
      isRequired, requiredMsg := false, "";
      description, helpArgName, defaultStr, envVar := "", "", "", "";
      helpSynopsis, maxArgs, mapKeysToLower := "", 0, false;
    }

    // --- Binding a destination: the last value mirrors the bound variable ---

    method SetBoolPtr(c: Cell)
      requires Valid() && kind == BoolType && c.contents.BoolValue?
      modifies this`dest, this`value
      ensures Valid() && dest == c && value == c.contents
    {
      dest, value := c, c.contents;
    }

    method SetStringPtr(c: Cell)
      requires Valid() && kind == StringType && c.contents.StringValue?
      modifies this`dest, this`value
      ensures Valid() && dest == c && value == c.contents
    {
      dest, value := c, c.contents;
    }

    method SetIntPtr(c: Cell)
      requires Valid() && kind == IntType && c.contents.IntValue?
      modifies this`dest, this`value
      ensures Valid() && dest == c && value == c.contents
    {
      dest, value := c, c.contents;
    }

    method SetStringSlicePtr(c: Cell)
      requires Valid() && kind == StringRepeatType && c.contents.StringSliceValue?
      modifies this`dest, this`value
      ensures Valid() && dest == c && value == c.contents
    {
      dest, value := c, c.contents;
    }

    method SetIntSlicePtr(c: Cell)
      requires Valid() && kind == IntRepeatType && c.contents.IntSliceValue?
      modifies this`dest, this`value
      ensures Valid() && dest == c && value == c.contents
    {
      dest, value := c, c.contents;
    }

    method SetStringMapPtr(c: Cell)
      requires Valid() && kind == StringMapType && c.contents.StringMapValue?
      modifies this`dest, this`value
      ensures Valid() && dest == c && value == c.contents
    {
      dest, value := c, c.contents;
    }

    // --- Presets: overwrite both the destination and the last value ---

    method SetBool(b: bool)
      requires Valid() && kind == BoolType
      modifies this`value, dest`contents
      ensures Valid() && value == BoolValue(b) && dest.contents == BoolValue(b)
    {
      value := BoolValue(b);
      dest.contents := BoolValue(b);
    }

    method SetString(s: string)
      requires Valid() && kind == StringType
      modifies this`value, dest`contents
      ensures Valid() && value == StringValue(s) && dest.contents == StringValue(s)
    {
      value := StringValue(s);
      dest.contents := StringValue(s);
    }

    method SetInt(n: int)
      requires Valid() && kind == IntType
      modifies this`value, dest`contents
      ensures Valid() && value == IntValue(n) && dest.contents == IntValue(n)
    {
      value := IntValue(n);
      dest.contents := IntValue(n);
    }

    // --- Presentation and invocation state ---

    method SetAlias(names: seq<string>)
      requires Valid()
      modifies this`aliases
      ensures Valid() && aliases == old(aliases) + names
    {
      aliases := aliases + names;
    }

    method SetDescription(s: string)
      modifies this`description
      ensures description == s
    {
      description := s;
    }

    method SetHelpArgName(s: string)
      modifies this`helpArgName
      ensures helpArgName == s
    {
      helpArgName := s;
    }

    method SetDefaultStr(s: string)
      modifies this`defaultStr
      ensures defaultStr == s
    {
      defaultStr := s;
    }

    method SetEnvVar(s: string)
      modifies this`envVar
      ensures envVar == s
    {
      envVar := s;
    }

    /** Marks the option required; without a later SetCalled it then fails
        CheckRequired. */
    method SetRequired(msg: string)
      modifies this`isRequired, this`requiredMsg
      ensures isRequired && requiredMsg == msg
      ensures !called ==> CheckRequired() == Fail(if msg == "" then MissingRequiredOption(name) else RequiredMessage(msg))
    {
      isRequired, requiredMsg := true, msg;
    }

    /** Records the alias the option was invoked as; afterwards CheckRequired passes. */
    method SetCalled(alias: string)
      modifies this`called, this`calledAs
      ensures called && calledAs == alias
      ensures CheckRequired() == Pass
    {
      called, calledAs := true, alias;
    }

    // --- Saving tokens ---

    /** Converts the tokens according to the kind and, on success, writes the
        new value to the destination and to the last value; on failure
        neither changes. The called flag is not touched. */
    method Save(tokens: seq<string>) returns (outcome: Outcome)
      requires Valid()
      modifies this`value, dest`contents
      ensures Valid()
      ensures var r := Saved(kind, old(dest.contents), tokens, calledAs, mapKeysToLower);
        if r.Ok? then outcome == Pass && value == r.value && dest.contents == r.value
        else outcome == Fail(r.error) && value == old(value) && dest.contents == old(dest.contents)
    {
      var current := dest.contents;
      var next: TypedValue;
      match kind {
        case BoolType =>
          next := BoolValue(!current.b);
        case StringType =>
          next := StringValue(FirstToken(tokens));
        case IntType =>
          var token := FirstToken(tokens);
          match ParseInt(token) {
            case None => return Fail(ConvertToInt(calledAs, token));
            case Some(n) => next := IntValue(n);
          }
        case StringRepeatType =>
          next := StringSliceValue(current.ss + tokens);
        case IntRepeatType =>
          var converted := ConvertIntList(tokens, calledAs);
          if converted.Err? {
            return Fail(converted.error);
          }
          next := IntSliceValue(current.ii + converted.value);
        case StringMapType =>
          match SplitKeyValue(FirstToken(tokens)) {
            case None => return Fail(ArgumentIsNotKeyValue(calledAs));
            case Some((key, v)) => next := StringMapValue(current.m[MapKey(key, mapKeysToLower) := v]);
          }
      }
      value := next;
      dest.contents := next;
      outcome := Pass;
    }

    // --- Queries ---

    /** The last value stored, in the kind's own shape. */
    function Value(): (v: TypedValue)
      reads this, dest
      ensures Valid() ==> KindOf(v) == kind
    {
      value
    }

    /** The int accessor reads the bound variable itself, so a later write by
        the caller is seen. */
    function Int(): (n: int)
      reads this, dest
      requires Valid() && kind == IntType
      ensures dest.contents == IntValue(n)
    {
      dest.contents.i
    }

    /** No error unless the option is required and was never called; then the
        custom message if one was given, else the missing-option error. */
    function CheckRequired(): (r: Outcome)
      reads this
      ensures r == Pass <==> !isRequired || called
      ensures r.Fail? ==> r.error == if requiredMsg == "" then MissingRequiredOption(name) else RequiredMessage(requiredMsg)
    {
      if !isRequired || called then Pass
      else if requiredMsg != "" then Fail(RequiredMessage(requiredMsg))
      else Fail(MissingRequiredOption(name))
    }

    /** Renders the usage fragment into HelpSynopsis. */
    method Synopsis()
      modifies this`helpSynopsis
      ensures helpSynopsis == SynopsisText(name, kind, helpArgName, maxArgs)
    {
      helpSynopsis := SynopsisText(name, kind, helpArgName, maxArgs);
    }
  }
}
