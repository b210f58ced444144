# go-getoptions option engine, modelled in Dafny

This project models the `option` package of go-getoptions. An `Option` has a
canonical name, aliases, a kind and a destination variable owned by the caller.
`Save(tokens...)` converts raw argument tokens into a value of the option's
kind and writes it to the destination. The model also covers the errors an
option reports: an integer that does not convert, a map token that is not
`key=value`, and a required option that was never called. Presentation
setters, the read-through `Int()` accessor, sorting by name and the synopsis
line are modelled too.

The package's implementation file is not part of this model. The behaviour
modelled is the one pinned by `option/option_test.go`. Where the tests say
nothing, the model states its own rule, and the lists below name each one:
for example, an int-list range is rejected only when lo > hi.

Files:

- `errors.dfy` — module `Errors`. The error constructors, one per message
  template, with their positional arguments: `ConvertToInt(calledAs, token)`,
  `ArgumentIsNotKeyValue(calledAs)`, `MissingRequiredOption(name)` and
  `RequiredMessage(message)`. It also holds the `Outcome`, `Result` and
  `Maybe` wrappers.
- `convert.dfy` — module `Convert`, the pure token converter:
  - decimal parsing with the acceptance rules of `strconv.Atoi`, and its
    inverse `FormatInt`;
  - the inclusive range `lo..hi` and the split at the first `..`;
  - conversion of an int-list token list;
  - the split at the first `=`;
  - ASCII key lowercasing.
- `options.dfy` — module `Options`:
  - the kinds and typed values;
  - `Saved`, the specification of one `Save`, with its lemmas;
  - `SaveAll`, several Saves in a row;
  - the synopsis text;
  - the classes `Cell`, a caller-owned variable, and `Option`, with its
    setters, `Save`, `Value`, `Int`, `CheckRequired` and `Synopsis`.
- `ordering.dfy` — module `Ordering`. The lexicographic name order, with
  proofs that it is a total order, and an in-place `Sort` over an
  `array<Option>`.
- `scenarios.dfy` — module `Scenarios`. The test cases replayed on the model.
  Each method's postcondition is what the test expects.

Behaviour the tests pin that a reader might expect otherwise:

- `Save` does not set the called flag; only `SetCalled` does. A required
  option whose `Save` succeeded still fails `CheckRequired`
  (option/option_test.go:193-200).
- The key=value error carries the called-as alias, which is `""` in the test.
  It does not carry the raw token (option/option_test.go:154-158).
- A map `Save` reads only its first token. The comment at
  option/option_test.go:148-149 records that a map handles one argument per
  call.

Other modelling choices:

- Each Go setter returns the option so calls can be chained; here a chain is a
  sequence of method calls on one object.
- A destination is a `Cell` object. `New` gives the option a fresh cell of its
  own. A `Set*Ptr` call rebinds the option to the caller's cell and copies the
  cell's value into the last-value slot.
- `Save` computes from the cell's current contents. On success it writes the
  new value to the cell and to the last value. On failure it writes neither.
- A bool, string, int or map `Save` with no tokens reads like one with a
  single empty token. A string-list or int-list `Save` with no tokens
  succeeds and leaves the list unchanged. With one empty token, an int-list
  `Save` fails instead (`SavedNoTokens`).
- An int-list range `lo..lo` is accepted and gives `[lo]`. Only `lo > hi` is
  rejected.

## Model

| member | source | states |
|---|---|---|
| `Convert.ParseInt` | option/option_test.go:69-86 | a token that parses is an optional sign followed by decimal digits, and its value fits a 64-bit int |
| `Convert.ParseFormatRoundTrip` | option/option_test.go:69-76 | parsing the decimal rendering of any 64-bit int gives that int back, so "123" parses to 123 |
| `Convert.NonDigitRejected` | option/option_test.go:77-86 | a character that is neither a digit nor a leading sign, such as the x of "123x" or "x", makes the token fail to parse |
| `Convert.OutOfRangeRejected` | option/option_test.go:77-86 | a decimal whose signed value lies outside the 64-bit range, including 9223372036854775808, is also a conversion failure, as with strconv.Atoi |
| `Convert.Range` | option/option_test.go:118-121 | a range lo..hi has hi - lo + 1 elements, and element k is lo + k; it is empty when lo > hi |
| `Convert.RangeAscending` | option/option_test.go:118-121 | the expansion is strictly ascending and stays between lo and hi |
| `Convert.SplitRange` | option/option_test.go:118-136 | splits at the first ".."; the parts joined with ".." give the token back; None exactly when the token has no ".." |
| `Convert.SplitRangeJoin` | option/option_test.go:118-121 | a dot-free lo joined to hi by ".." splits back into lo and hi |
| `Convert.TokenInts` | option/option_test.go:108-136 | a token that converts yields a non-empty run of consecutive integers, each within the 64-bit range |
| `Convert.TokenIntsSingle` | option/option_test.go:108-111 | an int-list token that is one integer yields just that integer |
| `Convert.TokenIntsRange` | option/option_test.go:118-121 | a token "lo..hi" with lo <= hi yields Range(lo, hi), which has hi - lo + 1 elements |
| `Convert.TokenIntsReversed` | option/option_test.go:132-136 | a reversed range such as 5..1 does not convert |
| `Convert.TokenIntsBadEnd` | option/option_test.go:122-131 | a range with an end that does not parse, such as x..5 or 1..x, does not convert |
| `Convert.ParseIntList` | option/option_test.go:108-136 | a token list that converts yields at least one integer per token, each within the 64-bit range |
| `Convert.ParseIntListOutcome` | option/option_test.go:108-136 | a token list converts exactly when every token does; otherwise the error is ConvertToInt(calledAs, t), where t is the first token that does not convert |
| `Convert.ParseIntListSingle` | option/option_test.go:112-116 | a single token yields its own integers, or ConvertToInt(calledAs, token) |
| `Convert.ParseIntListConcat` | option/option_test.go:108-111 | converting a + b gives the values of a followed by those of b; the first error wins |
| `Convert.SplitKeyValue` | option/option_test.go:138-158 | splits at the first '='; key + "=" + value gives the token back and the key has no '='; None exactly when the token has no '=' |
| `Convert.SplitKeyValueJoin` | option/option_test.go:138-141 | an '='-free key joined by '=' to any value splits back into both, the value verbatim |
| `Convert.ToLower` | option/option_test.go:142-147 | lowercasing keeps the length and maps every character through ASCII lowercasing |
| `Convert.ToLowerNormalises` | option/option_test.go:142-147 | the lowercased key has no upper-case letter; a key without one is unchanged; lowercasing is idempotent |
| `Options.Saved` | option/option_test.go:27-158 | whatever a Save stores has the option's kind |
| `Options.SavedNoTokens` | option/option_test.go:27-158 | with no tokens, a bool, string, int or map Save acts as with one empty token, and a list Save succeeds and keeps the list; an int list given one empty token fails with ConvertToInt(calledAs, "") |
| `Options.SavedBoolToggles` | option/option_test.go:27-50 | a bool Save ignores its tokens and negates the current value |
| `Options.SavedStringTakesFirst` | option/option_test.go:52-67 | a string Save stores its first token, the empty one included, whatever was there before |
| `Options.SavedIntParses` | option/option_test.go:69-86 | an int Save stores the parsed token over any preset; an unparsable token gives ConvertToInt(calledAs, token) |
| `Options.SavedIntRoundTrip` | option/option_test.go:69-76 | an int Save of the decimal rendering of n stores n |
| `Options.SavedIntRange` | option/option_test.go:118-136 | an int-list Save of "lo..hi" appends Range(lo, hi) after the current list; a reversed range gives ConvertToInt(calledAs, token) |
| `Options.SavedMapEntry` | option/option_test.go:138-147 | a map Save of "key=value" adds the entry under the key, lowercased when MapKeysToLower is set (no upper-case letter left), keeping the value verbatim and every other entry |
| `Options.SavedMapNotKeyValue` | option/option_test.go:154-158 | a map token without '=' gives ArgumentIsNotKeyValue(calledAs) |
| `Options.ConvertIntList` | option/option_test.go:108-136 | the token loop of an int-list Save returns exactly ParseIntList: the integers in token order, or the first token's error |
| `Options.BoolToggleParity` | option/option_test.go:27-50 | n Saves of a bool starting at b give b when n is even and !b when n is odd |
| `Options.StringListAccumulates` | option/option_test.go:103-106 | several Saves of a string list append all their tokens in order |
| `Options.SaveAll` | option/option_test.go:27-136 | several Saves in a row, stopping at the first error; whatever it ends with has the option's kind |
| `Options.IntListAccumulates` | option/option_test.go:108-136 | several Saves of an int list give one Save of all their tokens: integers in order, or the first bad token's error |
| `Options.SynopsisText` | option/option_test.go:267-272 | the synopsis starts with "--" and the name, and it is exactly that when the option is a bool |
| `Options.SynopsisShape` | option/option_test.go:267-272 | for kinds other than bool, " <arg>" follows "--name", where arg is the help argument name or the kind's placeholder; the text ends with "..." exactly when the kind repeats and MaxArgs > 1 |
| `Options.Option.New` | option/option_test.go:27-30 | aliases are [name]; the last value and a fresh destination hold the kind's zero; every flag and string is cleared |
| `Options.Option.SetBoolPtr` | option/option_test.go:27-34 | binds the caller's bool variable, and the last value takes its current contents |
| `Options.Option.SetStringPtr` | option/option_test.go:52-59 | binds the caller's string variable, and the last value takes its current contents |
| `Options.Option.SetIntPtr` | option/option_test.go:69-72 | binds the caller's int variable, and the last value takes its current contents |
| `Options.Option.SetStringSlicePtr` | option/option_test.go:103-106 | binds the caller's string slice, and the last value takes its current contents |
| `Options.Option.SetIntSlicePtr` | option/option_test.go:108-111 | binds the caller's int slice, and the last value takes its current contents |
| `Options.Option.SetStringMapPtr` | option/option_test.go:138-141 | binds the caller's map, and the last value takes its current contents |
| `Options.Option.SetBool` | option/option_test.go:35-50 | overwrites both the bound variable and the last value with the preset |
| `Options.Option.SetString` | option/option_test.go:60-67 | overwrites both the bound variable and the last value with the preset |
| `Options.Option.SetInt` | option/option_test.go:73-76 | overwrites both the bound variable and the last value with the preset |
| `Options.Option.SetAlias` | option/option_test.go:234-239 | appends the given names after the existing aliases, and the name stays first |
| `Options.Option.SetDescription` | option/option_test.go:234-249 | stores the description and changes nothing else |
| `Options.Option.SetHelpArgName` | option/option_test.go:234-252 | stores the help argument name and changes nothing else |
| `Options.Option.SetDefaultStr` | option/option_test.go:234-255 | stores the default string and changes nothing else |
| `Options.Option.SetEnvVar` | option/option_test.go:234-258 | stores the environment variable name and changes nothing else |
| `Options.Option.SetRequired` | option/option_test.go:193-200 | marks the option required with its message; while it is not called, CheckRequired fails with that message, or with MissingRequiredOption(name) when the message is empty |
| `Options.Option.SetCalled` | option/option_test.go:82-86 | records the alias used in later errors, marks the option called, and CheckRequired then passes |
| `Options.Option.Save` | option/option_test.go:160-176 | on success the destination and the last value both hold the converted value; on failure neither changes and the error is returned; the called flag is not touched |
| `Options.Option.Value` | option/option_test.go:172-175 | returns the last stored value, in the option's own kind |
| `Options.Option.Int` | option/option_test.go:240-246 | reads the bound variable itself, so a later write by the caller is seen |
| `Options.Option.CheckRequired` | option/option_test.go:218-227 | passes exactly when the option is not required or was called; otherwise fails with the custom message, or with MissingRequiredOption(name) when there is none |
| `Options.Option.Synopsis` | option/option_test.go:267-272 | sets HelpSynopsis to the synopsis text of the name, kind, help argument name and MaxArgs |
| `Ordering.NameLessEq` | option/option_test.go:260-265 | a is at most b exactly when a is a prefix of b, or when at the first place they differ a has the smaller character |
| `Ordering.NameLessEqReflexive` | option/option_test.go:260-265 | the name order is reflexive |
| `Ordering.NameLessEqTotal` | option/option_test.go:260-265 | any two names are comparable |
| `Ordering.NameLessEqAntisymmetric` | option/option_test.go:260-265 | names that are each at most the other are equal |
| `Ordering.NameLessEqTransitive` | option/option_test.go:260-265 | the name order is transitive |
| `Ordering.Sort` | option/option_test.go:260-265 | after sorting, the names ascend and the array is a permutation of what it held |
| `Ordering.InsertLast` | option/option_test.go:260-265 | one insertion step extends the sorted prefix by one element and keeps the array a permutation |
| `Scenarios.BoolToggle` | option/option_test.go:27-34 | a bool bound to false saves to true, and one bound to true saves to false, with no error |
| `Scenarios.BoolPreset` | option/option_test.go:35-50 | after SetBool(p), a Save gives !p, whatever the variable held at first |
| `Scenarios.StringSave` | option/option_test.go:52-67 | the saved token, empty or not, is the value, with or without a SetString preset |
| `Scenarios.IntSave` | option/option_test.go:69-76 | "123" saves as 123, with or without a SetInt(456) preset |
| `Scenarios.IntError` | option/option_test.go:77-86 | "123x" fails with ConvertToInt(alias, "123x"), where alias is the one given to SetCalled or ""; the value stays 0 |
| `Scenarios.StringSliceSave` | option/option_test.go:103-106 | "hola", "mundo" save as the slice [hola, mundo] |
| `Scenarios.IntSliceSave` | option/option_test.go:108-111 | the decimal tokens of two ints save as the slice [first, second], as "123", "456" give [123, 456] |
| `Scenarios.IntSliceTokens` | option/option_test.go:108-111 | the decimal renderings of 123 and 456 are "123" and "456" |
| `Scenarios.IntSliceError` | option/option_test.go:112-116 | "x" fails with ConvertToInt("", "x") and the slice stays empty |
| `Scenarios.IntSliceRange` | option/option_test.go:118-121 | "1..5" saves as [1, 2, 3, 4, 5] |
| `Scenarios.OneToFive` | option/option_test.go:118-121 | the range token is "1..5" and Range(1, 5) is [1, 2, 3, 4, 5] |
| `Scenarios.RangeTokenRejected` | option/option_test.go:122-136 | "x..5", "1..x" and "5..1" do not convert |
| `Scenarios.IntSliceRangeError` | option/option_test.go:122-136 | each of "x..5", "1..x" and "5..1" fails with ConvertToInt("", token), and the slice stays empty |
| `Scenarios.MapSave` | option/option_test.go:138-141 | "key=value" saves as the one-entry map {key: value}, as "hola=mundo" gives {hola: mundo} |
| `Scenarios.MapSaveLower` | option/option_test.go:142-147 | with MapKeysToLower, "key=value" saves as {lower(key): value} |
| `Scenarios.HolaLowered` | option/option_test.go:142-147 | the lowercased "Hola" is "hola", so "Hola=Mundo" gives {hola: Mundo} |
| `Scenarios.MapError` | option/option_test.go:154-158 | "hola" fails with ArgumentIsNotKeyValue("") and the map stays empty |
| `Scenarios.Required` | option/option_test.go:189-200 | the Save succeeds with true; then CheckRequired passes when the option is not required, and fails with MissingRequiredOption("help") or with the custom message when required |
| `Scenarios.Other` | option/option_test.go:232-258 | aliases are [help, ?, h]; Int() reads 0 and then 3 after the caller writes 3; the four presentation strings are stored |
| `Scenarios.SortByName` | option/option_test.go:260-265 | options b, a, c sort to a, b, c |
| `Scenarios.SynopsisIntRepeat` | option/option_test.go:267-272 | an int-list option help with MaxArgs 2 renders "--help <int>..." |

## Left out

- The Float64 kind is left out, with `SetFloat64Ptr`, `SetFloat64`, and its conversion and error cases (option/option_test.go:88-101). They depend on floating-point parsing.
- The wording of the message templates is left out. Errors are constructors that carry their positional arguments, because the message catalog is not part of this model.
- Multi-token map Saves are not modelled. A map `Save` reads only its first token, and the commented-out test at option/option_test.go:148-153 is settled neither way.
- Go's `interface{}` result of `Value()` and the tests' `reflect.DeepEqual` comparisons are replaced by the `TypedValue` datatype and Dafny equality.
- The typed accessors other than `Int()` are left out. No test uses them.
- The argument tokenizer, the option registry, help rendering beyond the synopsis line, and environment-variable ingestion are left out. None of their code is part of this model.
- The tests' harness (`t.Run`, `t.Errorf`) is left out.
- Key lowercasing covers ASCII letters only. Go's `strings.ToLower` also folds non-ASCII letters.
- Options.Option.SetBoolPtr: requires the option's kind to match the variable's type, like every `Set*Ptr` and preset setter. A mismatch is a programmer error that the Go code does not detect, so the model does not give it a meaning.
- Ordering.Sort: proves that the names ascend and that the result is a permutation. It does not prove that equal names keep their order.
- Options.SynopsisText: renders only "--" and the canonical name; aliases do not appear. It adds "..." only to a list or map kind with MaxArgs > 1, so a kind that repeats with MaxArgs <= 1 never gets one. Only "--help <int>..." is pinned by the tests.
- Options.Option.New: zeroes MaxArgs. The tests always set MaxArgs before they read it, so its initial value is not pinned.
