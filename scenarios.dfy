/** The cases of the option tests, replayed on the model: each method builds
    the option the way the test does, saves the test's tokens and returns
    what the test inspects, and its postcondition is the test's expectation. */
module Scenarios {
  import opened Errors
  import opened Convert
  import opened Options
  import opened Ordering

  /** Bool options toggle the bound variable: false gives true, true gives false. */
  method BoolToggle(b: bool) returns (err: Outcome, got: TypedValue)
    ensures err == Pass && got == BoolValue(!b)
  {
    var cell := new Cell(BoolValue(b));
    var opt := new Option.New("help", BoolType);
    opt.SetBoolPtr(cell);
    err := opt.Save([""]);
    got := opt.Value();
  }

  /** SetBool overwrites the bound variable's initial value before the toggle. */
  method BoolPreset(b: bool, preset: bool) returns (err: Outcome, got: TypedValue)
    ensures err == Pass && got == BoolValue(!preset)
  {
    var cell := new Cell(BoolValue(b));
    var opt := new Option.New("help", BoolType);
    opt.SetBoolPtr(cell);
    opt.SetBool(preset);
    err := opt.Save([""]);
    got := opt.Value();
  }

  /** A string option stores its token, the empty one included, over any preset. */
  method StringSave(preset: Maybe<string>, token: string) returns (err: Outcome, got: TypedValue)
    ensures err == Pass && got == StringValue(token)
  {
    var cell := new Cell(StringValue(""));
    var opt := new Option.New("help", StringType);
    opt.SetStringPtr(cell);
    if preset.Some? {
      opt.SetString(preset.value);
    }
    err := opt.Save([token]);
    got := opt.Value();
  }

  /** "123" saves as 123, with or without a SetInt(456) preset. */
  method IntSave(preset: Maybe<int>) returns (err: Outcome, got: TypedValue)
    ensures err == Pass && got == IntValue(123)
  {
    var cell := new Cell(IntValue(0));
    var opt := new Option.New("help", IntType);
    opt.SetIntPtr(cell);
    if preset.Some? {
      opt.SetInt(preset.value);
    }
    var token := FormatInt(123);
    IntSliceTokens();
    ParseFormatRoundTrip(123);
    err := opt.Save([token]);
    got := opt.Value();
  }

  /** "123x" is a conversion error carrying the alias given to SetCalled (or
      the empty string without one) and the raw token; the value stays 0. */
  method IntError(alias: Maybe<string>) returns (err: Outcome, got: TypedValue)
    ensures err == Fail(ConvertToInt(if alias.Some? then alias.value else "", "123x"))
    ensures got == IntValue(0)
  {
    var cell := new Cell(IntValue(0));
    var opt := new Option.New("help", IntType);
    opt.SetIntPtr(cell);
    if alias.Some? {
      opt.SetCalled(alias.value);
    }
    NonDigitRejected("123x", 3);
    err := opt.Save(["123x"]);
    got := opt.Value();
  }

  /** A string slice receives every token in order. */
  method StringSliceSave() returns (err: Outcome, got: TypedValue)
    ensures err == Pass && got == StringSliceValue(["hola", "mundo"])
  {
    var cell := new Cell(StringSliceValue([]));
    var opt := new Option.New("help", StringRepeatType);
    opt.SetStringSlicePtr(cell);
    err := opt.Save(["hola", "mundo"]);
    got := opt.Value();
  }

  /** An int slice receives the integers of its tokens in token order:
      "123", "456" give 123, 456. */
  method IntSliceSave(first: int, second: int) returns (err: Outcome, got: TypedValue)
    requires InIntRange(first) && InIntRange(second)
    ensures err == Pass && got == IntSliceValue([first, second])
  {
    var cell := new Cell(IntSliceValue([]));
    var opt := new Option.New("help", IntRepeatType);
    opt.SetIntSlicePtr(cell);
    var tokens := [FormatInt(first), FormatInt(second)];
    TokenIntsSingle(first);
    TokenIntsSingle(second);
    ParseIntListSingle(tokens[0], "");
    ParseIntListSingle(tokens[1], "");
    ParseIntListConcat([tokens[0]], [tokens[1]], "");
    assert [tokens[0]] + [tokens[1]] == tokens;
    err := opt.Save(tokens);
    got := opt.Value();
  }

  /** The tokens of the int tests are the decimal renderings of 123 and 456. */
  lemma IntSliceTokens()
    ensures FormatInt(123) == "123" && FormatInt(456) == "456"
  {
    assert FormatNat(1) == "1" && FormatNat(12) == "12";
    assert FormatNat(4) == "4" && FormatNat(45) == "45";
  }

  /** "x" is not an integer: error, and the slice stays empty. */
  method IntSliceError() returns (err: Outcome, got: TypedValue)
    ensures err == Fail(ConvertToInt("", "x")) && got == IntSliceValue([])
  {
    var cell := new Cell(IntSliceValue([]));
    var opt := new Option.New("help", IntRepeatType);
    opt.SetIntSlicePtr(cell);
    NonDigitRejected("x", 0);
    assert !ContainsDots("x");
    ParseIntListSingle("x", "");
    err := opt.Save(["x"]);
    got := opt.Value();
  }

  /** "1..5" expands to 1, 2, 3, 4, 5. */
  method IntSliceRange() returns (err: Outcome, got: TypedValue)
    ensures err == Pass && got == IntSliceValue([1, 2, 3, 4, 5])
  {
    var cell := new Cell(IntSliceValue([]));
    var opt := new Option.New("help", IntRepeatType);
    opt.SetIntSlicePtr(cell);
    var token := FormatInt(1) + ".." + FormatInt(5);
    OneToFive();
    SavedIntRange([], 1, 5, "", false);
    err := opt.Save([token]);
    got := opt.Value();
  }

  /** The token of the range test and its expansion. */
  lemma OneToFive()
    ensures FormatInt(1) + ".." + FormatInt(5) == "1..5"
    ensures Range(1, 5) == [1, 2, 3, 4, 5]
  {
  }

  /** "x..5", "1..x" and the reversed "5..1" are each a conversion error
      naming the raw token, and the slice stays empty. */
  method IntSliceRangeError(token: string) returns (err: Outcome, got: TypedValue)
    requires token == "x..5" || token == "1..x" || token == "5..1"
    ensures err == Fail(ConvertToInt("", token)) && got == IntSliceValue([])
  {
    var cell := new Cell(IntSliceValue([]));
    var opt := new Option.New("help", IntRepeatType);
    opt.SetIntSlicePtr(cell);
    RangeTokenRejected(token);
    ParseIntListSingle(token, "");
    err := opt.Save([token]);
    got := opt.Value();
  }

  /** The three malformed range tokens of the tests do not convert. */
  lemma RangeTokenRejected(token: string)
    requires token == "x..5" || token == "1..x" || token == "5..1"
    ensures TokenInts(token) == None
  {
    if token == "x..5" {
      NonDigitRejected("x", 0);
      assert token == "x" + ".." + "5";
      TokenIntsBadEnd("x", "5");
    } else if token == "1..x" {
      NonDigitRejected("x", 0);
      assert token == "1" + ".." + "x";
      TokenIntsBadEnd("1", "x");
    } else {
      assert token == FormatInt(5) + ".." + FormatInt(1);
      TokenIntsReversed(5, 1);
    }
  }

  /** "key=value" stores the entry key: value ("hola=mundo" gives hola: mundo). */
  method MapSave(key: string, value: string) returns (err: Outcome, got: TypedValue)
    requires '=' !in key
    ensures err == Pass && got == StringMapValue(map[key := value])
  {
    var cell := new Cell(StringMapValue(map[]));
    var opt := new Option.New("help", StringMapType);
    opt.SetStringMapPtr(cell);
    SplitKeyValueJoin(key, value);
    err := opt.Save([key + "=" + value]);
    got := opt.Value();
  }

  /** With MapKeysToLower the key is lowercased and the value keeps its case
      ("Hola=Mundo" gives hola: Mundo). */
  method MapSaveLower(key: string, value: string) returns (err: Outcome, got: TypedValue)
    requires '=' !in key
    ensures err == Pass && got == StringMapValue(map[ToLower(key) := value])
  {
    var cell := new Cell(StringMapValue(map[]));
    var opt := new Option.New("help", StringMapType);
    opt.SetStringMapPtr(cell);
    opt.mapKeysToLower := true;
    SplitKeyValueJoin(key, value);
    err := opt.Save([key + "=" + value]);
    got := opt.Value();
  }

  /** The key of the lowercasing test. */
  lemma HolaLowered()
    ensures ToLower("Hola") == "hola"
  {
  }

  /** A map token without '=' is an error and the map stays empty. */
  method MapError() returns (err: Outcome, got: TypedValue)
    ensures err == Fail(ArgumentIsNotKeyValue("")) && got == StringMapValue(map[])
  {
    var cell := new Cell(StringMapValue(map[]));
    var opt := new Option.New("help", StringMapType);
    opt.SetStringMapPtr(cell);
    err := opt.Save(["hola"]);
    got := opt.Value();
  }

  /** A successful Save does not count as a call: a required option still
      fails CheckRequired, with its custom message or the missing-option
      error; an option that is not required passes. */
  method Required(required: bool, msg: string) returns (err: Outcome, got: TypedValue, missing: Outcome)
    ensures err == Pass && got == BoolValue(true)
    ensures missing == if !required then Pass
                       else if msg == "" then Fail(MissingRequiredOption("help"))
                       else Fail(RequiredMessage(msg))
  {
    var cell := new Cell(BoolValue(false));
    var opt := new Option.New("help", BoolType);
    opt.SetBoolPtr(cell);
    if required {
      opt.SetRequired(msg);
    }
    err := opt.Save([""]);
    got := opt.Value();
    missing := opt.CheckRequired();
  }

  /** Aliases append after the name, the presentation setters store their
      strings, and Int() reads the bound variable after the caller writes it. */
  method Other() returns (aliases: seq<string>, before: int, after: int,
                         description: string, helpArgName: string, defaultStr: string, envVar: string)
    ensures aliases == ["help", "?", "h"]
    ensures before == 0 && after == 3
    ensures description == "int help" && helpArgName == "myint" && defaultStr == "5" && envVar == "ENV_VAR"
  {
    var i := new Cell(IntValue(0));
    var opt := new Option.New("help", IntType);
    opt.SetIntPtr(i);
    opt.SetAlias(["?", "h"]);
    opt.SetDescription("int help");
    opt.SetHelpArgName("myint");
    opt.SetDefaultStr("5");
    opt.SetEnvVar("ENV_VAR");
    aliases := opt.aliases;
    before := opt.Int();
    i.contents := IntValue(3);
    after := opt.Int();
    description, helpArgName, defaultStr, envVar := opt.description, opt.helpArgName, opt.defaultStr, opt.envVar;
  }

  /** Options b, a, c sort to a, b, c. */
  method SortByName() returns (names: seq<string>)
    ensures names == ["a", "b", "c"]
  {
    var ob := new Option.New("b", BoolType);
    var oa := new Option.New("a", BoolType);
    var oc := new Option.New("c", BoolType);
    var list := new Option[3][ob, oa, oc];
    assert list[..] == [ob, oa, oc];
    Sort(list);
    assert multiset(list[..]) == multiset([ob, oa, oc]);
    assert oa in list[..] && ob in list[..] && oc in list[..];
    assert OptionLessEq(list[0], list[1]) && OptionLessEq(list[1], list[2]);
    names := [list[0].name, list[1].name, list[2].name];
  }

  /** An int-list option named help with MaxArgs 2 renders "--help <int>...". */
  method SynopsisIntRepeat() returns (synopsis: string)
    ensures synopsis == "--help <int>..."
  {
    var opt := new Option.New("help", IntRepeatType);
    opt.maxArgs := 2;
    opt.Synopsis();
    synopsis := opt.helpSynopsis;
  }
}
