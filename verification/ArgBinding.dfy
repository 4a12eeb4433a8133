/** Binding command-line input to an argument spec (`CommandDef` in `command.rs`): what validation
    demands and what binding delivers. */
module ArgBinding {
  import opened Wrappers
  import opened ArgSpec

  /** The part of a command that binding looks at. */
  datatype CommandDef = CommandDef(args: Spec, defaults: map<string, string>)

  datatype ValidationError =
    | MissingPositional(name: string)
    | MissingOption(name: string)
    | MissingVariadic(name: string)

  function Find(m: map<string, string>, key: string): Option<string> { if key in m then Some(m[key]) else None }

  function JoinWords(words: seq<string>): string {
    if words == [] then "" else if |words| == 1 then words[0] else words[0] + " " + JoinWords(words[1..])
  }

  /** Where the k-th of some words begins when each is followed by one character. */
  function Offset(words: seq<string>, k: nat): nat
    requires k <= |words|
  {
    if k == 0 then 0 else Offset(words, k - 1) + |words[k - 1]| + 1
  }

  /** The text holds the k-th word in its place, behind a space if it is not the first. */
  predicate HoldsWord(text: string, words: seq<string>, k: nat)
    requires k < |words|
  {
    var at := Offset(words, k);
    && at + |words[k]| <= |text| && text[at..at + |words[k]|] == words[k]
    && (k > 0 ==> text[at - 1] == ' ')
  }

  /** The text is the words with one space between each two, and nothing else. */
  ghost predicate Spells(text: string, words: seq<string>) {
    && |text| + 1 == Offset(words, |words|)
    && forall k :: 0 <= k < |words| ==> HoldsWord(text, words, k)
  }

  lemma {:induction false} OffsetOfRest(words: seq<string>, k: nat)
    requires 0 < k <= |words|
    ensures Offset(words, k) == |words[0]| + 1 + Offset(words[1..], k - 1)
    decreases k
  {
    if k > 1 {
      OffsetOfRest(words, k - 1);
    }
  }

  lemma {:induction false} JoinSpells(words: seq<string>)
    requires words != []
    ensures Spells(JoinWords(words), words)
    decreases |words|
  {
    var text := JoinWords(words);
    OffsetOfRest(words, |words|);
    if |words| > 1 {
      var rest := words[1..];
      JoinSpells(rest);
      assert text == words[0] + " " + JoinWords(rest);
      forall k | 0 <= k < |words|
        ensures HoldsWord(text, words, k)
      {
        if k > 0 {
          OffsetOfRest(words, k);
          WordBehind(words[0] + " ", JoinWords(rest), rest, k - 1);
        }
      }
    }
  }

  lemma WordBehind(head: string, text: string, words: seq<string>, k: nat)
    requires k < |words| && HoldsWord(text, words, k) && head != "" && head[|head| - 1] == ' '
    ensures var at := |head| + Offset(words, k);
            && at + |words[k]| <= |head + text| && (head + text)[at..at + |words[k]|] == words[k]
            && (head + text)[at - 1] == ' '
  {
    var at := Offset(words, k);
    assert (head + text)[|head| + at..|head| + at + |words[k]|] == text[at..at + |words[k]|];
    OffsetIsLater(words, k);
  }

  lemma {:induction false} OffsetIsLater(words: seq<string>, k: nat)
    requires k <= |words|
    ensures k > 0 ==> Offset(words, k) > 0
    ensures k == 0 ==> Offset(words, k) == 0
  {
  }

  /** Words without spaces are found again. */
  lemma {:induction false} JoinSplits(words: seq<string>)
    requires words != [] && forall k :: 0 <= k < |words| ==> ' ' !in words[k]
    ensures SplitOn(JoinWords(words), ' ') == words
    decreases |words|
  {
    if |words| == 1 {
      SplitWord(words[0], "", false);
      assert words[0] + "" == words[0];
    } else {
      JoinSplits(words[1..]);
      SplitWord(words[0], JoinWords(words[1..]), true);
      assert words[0] + (" " + JoinWords(words[1..])) == JoinWords(words);
    }
  }

  lemma {:induction false} SplitWord(word: string, rest: string, more: bool)
    requires ' ' !in word && (!more ==> rest == "")
    ensures SplitOn(word + (if more then " " + rest else ""), ' ') == [word] + if more then SplitOn(rest, ' ') else []
    decreases |word|
  {
    var tail := if more then " " + rest else "";
    var text := word + tail;
    if word == "" {
      assert text == tail && (more ==> tail[1..] == rest);
    } else {
      assert word[0] in word;
      assert text[1..] == word[1..] + tail;
      SplitWord(word[1..], rest, more);
      assert [word[0]] + word[1..] == word;
    }
  }

  // ------------------------------------------------------------------ binding

  /** The last of the first `n` positionals that has this name. */
  function LastNamed(args: seq<ArgDef>, n: nat, key: string): (r: Option<nat>)
    requires n <= |args|
    ensures r.Some? ==> r.value < n && args[r.value].name == key
    ensures r.None? ==> forall i :: 0 <= i < n ==> args[i].name != key
  {
    if n == 0 then None else if args[n - 1].name == key then Some(n - 1) else LastNamed(args, n - 1, key)
  }

  function Min(a: nat, b: nat): nat { if a < b then a else b }

  predicate FillsVariadic(def: CommandDef, positional: seq<string>, key: string) {
    def.args.variadic.Some? && |positional| > |def.args.positional| && key == def.args.variadic.value.name
  }

  /** What the first `n` positionals and the defaults give a key. */
  function Placed(def: CommandDef, positional: seq<string>, n: nat, key: string): Option<string>
    requires n <= |def.args.positional| && n <= |positional|
  {
    var last := LastNamed(def.args.positional, n, key);
    if last.Some? then Some(positional[last.value]) else Find(def.defaults, key)
  }

  lemma PlaceOneMore(def: CommandDef, positional: seq<string>, n: nat, key: string)
    requires n < |def.args.positional| && n < |positional|
    ensures Placed(def, positional, n + 1, key)
         == if key == def.args.positional[n].name then Some(positional[n]) else Placed(def, positional, n, key)
  {
    assert LastNamed(def.args.positional, n + 1, key)
        == if key == def.args.positional[n].name then Some(n) else LastNamed(def.args.positional, n, key);
  }

  /** The value of one key, looked up by precedence: named arguments, then the words left for the
      variadic, then the last positional of that name, then the default. */
  function Lookup(def: CommandDef, positional: seq<string>, named: map<string, string>, key: string): Option<string> {
    var args := def.args.positional;
    if key in named then Some(named[key])
    else if FillsVariadic(def, positional, key) then Some(JoinWords(positional[|args|..]))
    else Placed(def, positional, Min(|args|, |positional|), key)
  }

  /** `parse_args`: the defaults, overwritten step by step. The named arguments are visited in no
      particular order. */
  method ParseArgs(def: CommandDef, positional: seq<string>, named: map<string, string>)
    returns (bound: map<string, string>)
    ensures forall key :: Find(bound, key) == Lookup(def, positional, named, key)
    ensures def.args.variadic.Some? && |positional| > |def.args.positional| ==>
              var name := def.args.variadic.value.name;
              var words := positional[|def.args.positional|..];
              name !in named ==>
                && name in bound && Spells(bound[name], words)
                && ((forall k :: 0 <= k < |words| ==> ' ' !in words[k]) ==> SplitOn(bound[name], ' ') == words)
  {
    var args := def.args.positional;
    bound := def.defaults;
    for i := 0 to |args|
      invariant forall key :: Find(bound, key) == Placed(def, positional, Min(i, |positional|), key)
    {
      if i < |positional| {
        ghost var before := bound;
        bound := bound[args[i].name := positional[i]];
        forall key
          ensures Find(bound, key) == Placed(def, positional, i + 1, key)
        {
          PlaceOneMore(def, positional, i, key);
          assert Find(before, key) == Placed(def, positional, i, key);
        }
      }
    }
    if def.args.variadic.Some? && |positional| > |args| {
      bound := bound[def.args.variadic.value.name := JoinWords(positional[|args|..])];
    }
    assert forall key :: Find(bound, key) == Lookup(def, positional, map[], key);
    var keys := named.Keys;
    while keys != {}
      invariant keys <= named.Keys
      invariant forall key ::
        Find(bound, key)
        == if key in named && key !in keys then Some(named[key]) else Lookup(def, positional, map[], key)
      decreases |keys|
    {
      var key :| key in keys;
      bound := bound[key := named[key]];
      keys := keys - {key};
    }
    VariadicSpells(def, positional, named, bound);
  }

  lemma VariadicSpells(def: CommandDef, positional: seq<string>, named: map<string, string>, bound: map<string, string>)
    requires forall key :: Find(bound, key) == Lookup(def, positional, named, key)
    ensures def.args.variadic.Some? && |positional| > |def.args.positional| ==>
              var name := def.args.variadic.value.name;
              var words := positional[|def.args.positional|..];
              name !in named ==>
                && name in bound && Spells(bound[name], words)
                && ((forall k :: 0 <= k < |words| ==> ' ' !in words[k]) ==> SplitOn(bound[name], ' ') == words)
  {
    if def.args.variadic.Some? && |positional| > |def.args.positional| {
      var name := def.args.variadic.value.name;
      var words := positional[|def.args.positional|..];
      assert Find(bound, name) == Lookup(def, positional, named, name);
      JoinSpells(words);
      if forall k :: 0 <= k < |words| ==> ' ' !in words[k] {
        JoinSplits(words);
      }
    }
  }

  // --------------------------------------------------------------- validation

  predicate PositionalGiven(def: CommandDef, positional: seq<string>, named: map<string, string>, i: nat)
    requires i < |def.args.positional|
  {
    var arg := def.args.positional[i];
    arg.required ==> i < |positional| || arg.name in named || arg.name in def.defaults
  }

  predicate OptionGiven(def: CommandDef, named: map<string, string>, i: nat)
    requires i < |def.args.options|
  {
    var option := def.args.options[i];
    option.required ==> option.name in named || option.name in def.defaults
  }

  predicate VariadicGiven(def: CommandDef, positional: seq<string>, named: map<string, string>) {
    def.args.variadic.Some? && def.args.variadic.value.required ==>
      var name := def.args.variadic.value.name;
      |positional| > |def.args.positional| || name in named || name in def.defaults
  }

  ghost predicate PositionalsGiven(def: CommandDef, positional: seq<string>, named: map<string, string>, n: nat)
    requires n <= |def.args.positional|
  {
    forall i :: 0 <= i < n ==> PositionalGiven(def, positional, named, i)
  }

  ghost predicate OptionsGiven(def: CommandDef, named: map<string, string>, n: nat)
    requires n <= |def.args.options|
  {
    forall i :: 0 <= i < n ==> OptionGiven(def, named, i)
  }

  /** Nothing required is missing. */
  ghost predicate Provided(def: CommandDef, positional: seq<string>, named: map<string, string>) {
    && PositionalsGiven(def, positional, named, |def.args.positional|)
    && OptionsGiven(def, named, |def.args.options|)
    && VariadicGiven(def, positional, named)
  }

  /** The error names the first missing argument: positionals, then options, then the variadic. */
  ghost predicate FirstMissing(def: CommandDef, positional: seq<string>, named: map<string, string>,
                               e: ValidationError) {
    match e
    case MissingPositional(name) =>
      exists i :: 0 <= i < |def.args.positional| && !PositionalGiven(def, positional, named, i)
                  && PositionalsGiven(def, positional, named, i) && name == def.args.positional[i].name
    case MissingOption(name) =>
      PositionalsGiven(def, positional, named, |def.args.positional|)
      && exists i :: 0 <= i < |def.args.options| && !OptionGiven(def, named, i)
                     && OptionsGiven(def, named, i) && name == def.args.options[i].name
    case MissingVariadic(name) =>
      && PositionalsGiven(def, positional, named, |def.args.positional|)
      && OptionsGiven(def, named, |def.args.options|)
      && !VariadicGiven(def, positional, named) && name == def.args.variadic.value.name
  }

  /** `validate_args` */
  method ValidateArgs(def: CommandDef, positional: seq<string>, named: map<string, string>)
    returns (r: Option<ValidationError>)
    ensures r.None? <==> Provided(def, positional, named)
    ensures r.Some? ==> FirstMissing(def, positional, named, r.value)
  {
    for i := 0 to |def.args.positional|
      invariant PositionalsGiven(def, positional, named, i)
    {
      var arg := def.args.positional[i];
      if arg.required {
        var hasValue := i < |positional| || arg.name in named || arg.name in def.defaults;
        if !hasValue {
          assert !PositionalGiven(def, positional, named, i);
          return Some(MissingPositional(arg.name));
        }
      }
    }
    for i := 0 to |def.args.options|
      invariant OptionsGiven(def, named, i)
    {
      var option := def.args.options[i];
      if option.required {
        var hasValue := option.name in named || option.name in def.defaults;
        if !hasValue {
          assert !OptionGiven(def, named, i);
          return Some(MissingOption(option.name));
        }
      }
    }
    if def.args.variadic.Some? {
      var variadic := def.args.variadic.value;
      if variadic.required {
        var hasValues := |positional| > |def.args.positional|
          || variadic.name in named || variadic.name in def.defaults;
        if !hasValues {
          return Some(MissingVariadic(variadic.name));
        }
      }
    }
    r := None;
  }

  // --------------------------------------------------- the two of them together

  /** A name that must have a value. */
  ghost predicate Required(spec: Spec, name: string) {
    || (exists i :: 0 <= i < |spec.positional| && spec.positional[i].required && spec.positional[i].name == name)
    || (exists i :: 0 <= i < |spec.options| && spec.options[i].required && spec.options[i].name == name)
    || (spec.variadic.Some? && spec.variadic.value.required && spec.variadic.value.name == name)
  }

  /** Every required name gets a value. */
  ghost predicate RequiredBound(def: CommandDef, positional: seq<string>, named: map<string, string>) {
    forall name :: Required(def.args, name) ==> Lookup(def, positional, named, name).Some?
  }

  /** Whatever the spec, what passes validation binds every required name. */
  lemma ProvidedIsBound(def: CommandDef, positional: seq<string>, named: map<string, string>)
    requires Provided(def, positional, named)
    ensures RequiredBound(def, positional, named)
  {
    forall name | Required(def.args, name)
      ensures Lookup(def, positional, named, name).Some?
    {
      var args := def.args.positional;
      if i :| 0 <= i < |args| && args[i].required && args[i].name == name {
        assert PositionalGiven(def, positional, named, i);
      } else if i :| 0 <= i < |def.args.options| && def.args.options[i].required && def.args.options[i].name == name {
        assert OptionGiven(def, named, i);
      }
    }
  }

  /** No required argument shares its name with an argument that can hide that it is missing: a positional
      with an earlier one, an option with a positional or the variadic, the variadic with a positional. */
  ghost predicate Unshadowed(spec: Spec) {
    && (forall i, j :: 0 <= i < j < |spec.positional| && spec.positional[j].required ==>
          spec.positional[i].name != spec.positional[j].name)
    && (forall i, j :: 0 <= i < |spec.positional| && 0 <= j < |spec.options| && spec.options[j].required ==>
          spec.positional[i].name != spec.options[j].name)
    && (forall j :: 0 <= j < |spec.options| && spec.options[j].required && spec.variadic.Some? ==>
          spec.variadic.value.name != spec.options[j].name)
    && (forall i :: 0 <= i < |spec.positional| && spec.variadic.Some? && spec.variadic.value.required ==>
          spec.positional[i].name != spec.variadic.value.name)
  }

  /** For any defaults and any input, validation succeeds exactly when every required name is bound. */
  ghost predicate Exact(spec: Spec) {
    forall defaults: map<string, string>, positional: seq<string>, named: map<string, string> ::
      var def := CommandDef(spec, defaults);
      Provided(def, positional, named) <==> RequiredBound(def, positional, named)
  }

  lemma BoundIsProvided(def: CommandDef, positional: seq<string>, named: map<string, string>)
    requires Unshadowed(def.args) && RequiredBound(def, positional, named)
    ensures Provided(def, positional, named)
  {
    forall i | 0 <= i < |def.args.positional|
      ensures PositionalGiven(def, positional, named, i)
    {
      if def.args.positional[i].required {
        assert Required(def.args, def.args.positional[i].name);
      }
    }
    forall i | 0 <= i < |def.args.options|
      ensures OptionGiven(def, named, i)
    {
      if def.args.options[i].required {
        assert Required(def.args, def.args.options[i].name);
      }
    }
    if def.args.variadic.Some? && def.args.variadic.value.required {
      assert Required(def.args, def.args.variadic.value.name);
    }
  }

  /** Defaults for all arguments but those of one name. */
  function AllBut(spec: Spec, name: string): map<string, string> {
    map n | n in NameSet(spec) && n != name :: ""
  }

  function NameSet(spec: Spec): set<string> {
    (set i | 0 <= i < |spec.positional| :: spec.positional[i].name)
    + (set i | 0 <= i < |spec.options| :: spec.options[i].name)
    + (if spec.variadic.Some? then {spec.variadic.value.name} else {})
  }

  function Words(n: nat): seq<string> { seq(n, i => "") }

  /** With such defaults every required name is bound if the one name left out is. */
  lemma OthersAreBound(spec: Spec, name: string, positional: seq<string>)
    requires Lookup(CommandDef(spec, AllBut(spec, name)), positional, map[], name).Some?
    ensures RequiredBound(CommandDef(spec, AllBut(spec, name)), positional, map[])
  {
    var def := CommandDef(spec, AllBut(spec, name));
    forall other | Required(spec, other)
      ensures Lookup(def, positional, map[], other).Some?
    {
      assert other in NameSet(spec);
      assert other != name ==> other in def.defaults;
    }
  }

  lemma Hidden(spec: Spec, name: string, positional: seq<string>)
    requires Lookup(CommandDef(spec, AllBut(spec, name)), positional, map[], name).Some?
    requires !Provided(CommandDef(spec, AllBut(spec, name)), positional, map[])
    ensures !Exact(spec)
  {
    OthersAreBound(spec, name, positional);
  }

  /** The positional that an earlier one of the same name hides: give words up to it, and no more. */
  lemma HiddenPositional(spec: Spec, i: nat, j: nat)
    requires i < j < |spec.positional| && spec.positional[j].required
    requires spec.positional[i].name == spec.positional[j].name
    ensures !Exact(spec)
  {
    var name := spec.positional[j].name;
    var def := CommandDef(spec, AllBut(spec, name));
    assert !PositionalGiven(def, Words(j), map[], j);
    Hidden(spec, name, Words(j));
  }

  /** The option that a positional hides: give a word for every positional. */
  lemma OptionBehindPositional(spec: Spec, i: nat, j: nat)
    requires i < |spec.positional| && j < |spec.options| && spec.options[j].required
    requires spec.positional[i].name == spec.options[j].name
    ensures !Exact(spec)
  {
    var name := spec.options[j].name;
    var def := CommandDef(spec, AllBut(spec, name));
    assert !OptionGiven(def, map[], j);
    Hidden(spec, name, Words(|spec.positional|));
  }

  /** The option that the variadic hides: give one word more. */
  lemma OptionBehindVariadic(spec: Spec, j: nat)
    requires j < |spec.options| && spec.options[j].required
    requires spec.variadic.Some? && spec.variadic.value.name == spec.options[j].name
    ensures !Exact(spec)
  {
    var name := spec.options[j].name;
    var def := CommandDef(spec, AllBut(spec, name));
    assert !OptionGiven(def, map[], j);
    Hidden(spec, name, Words(|spec.positional| + 1));
  }

  /** The variadic that a positional hides: give no word too many. */
  lemma VariadicBehindPositional(spec: Spec, i: nat)
    requires i < |spec.positional| && spec.variadic.Some? && spec.variadic.value.required
    requires spec.positional[i].name == spec.variadic.value.name
    ensures !Exact(spec)
  {
    var name := spec.variadic.value.name;
    var def := CommandDef(spec, AllBut(spec, name));
    assert !VariadicGiven(def, Words(|spec.positional|), map[]);
    Hidden(spec, name, Words(|spec.positional|));
  }

  /** Main result, one half: validation agrees with binding, for all defaults and all input, if and only if
      no required argument of the spec is shadowed. */
  lemma ExactIffUnshadowed(spec: Spec)
    ensures Exact(spec) <==> Unshadowed(spec)
  {
    if Unshadowed(spec) {
      forall defaults: map<string, string>, positional: seq<string>, named: map<string, string>
        ensures var def := CommandDef(spec, defaults);
                Provided(def, positional, named) <==> RequiredBound(def, positional, named)
      {
        var def := CommandDef(spec, defaults);
        if Provided(def, positional, named) {
          ProvidedIsBound(def, positional, named);
        }
        if RequiredBound(def, positional, named) {
          BoundIsProvided(def, positional, named);
        }
      }
    } else {
      ShadowedIsInexact(spec);
    }
  }

  lemma ShadowedIsInexact(spec: Spec)
    requires !Unshadowed(spec)
    ensures !Exact(spec)
  {
    if i, j :| 0 <= i < j < |spec.positional| && spec.positional[j].required
               && spec.positional[i].name == spec.positional[j].name
    {
      HiddenPositional(spec, i, j);
    } else if i, j :| 0 <= i < |spec.positional| && 0 <= j < |spec.options| && spec.options[j].required
                      && spec.positional[i].name == spec.options[j].name
    {
      OptionBehindPositional(spec, i, j);
    } else if j :| 0 <= j < |spec.options| && spec.options[j].required && spec.variadic.Some?
                   && spec.variadic.value.name == spec.options[j].name
    {
      OptionBehindVariadic(spec, j);
    } else {
      var i :| 0 <= i < |spec.positional| && spec.variadic.Some? && spec.variadic.value.required
               && spec.positional[i].name == spec.variadic.value.name;
      VariadicBehindPositional(spec, i);
    }
  }

  /** With distinct names a name is one argument's only. */
  lemma OneArgumentEach(spec: Spec)
    requires DistinctNames(spec)
    ensures forall i, j :: 0 <= i < j < |spec.positional| ==> spec.positional[i].name != spec.positional[j].name
    ensures forall i, j :: 0 <= i < |spec.positional| && 0 <= j < |spec.options| ==>
                             spec.positional[i].name != spec.options[j].name
    ensures spec.variadic.Some? ==>
              && (forall i :: 0 <= i < |spec.positional| ==> spec.positional[i].name != spec.variadic.value.name)
              && (forall i :: 0 <= i < |spec.options| ==> spec.options[i].name != spec.variadic.value.name)
  {
    var names, options := PositionalNames(spec.positional), OptionNames(spec.options);
    forall i, j | 0 <= i < j < |spec.positional|
      ensures spec.positional[i].name != spec.positional[j].name
    {
      assert NameBag(spec)[names[i]] <= 1;
      if names[i] == names[j] {
        TwiceInBag(names, i, j);
      }
    }
    forall i, j | 0 <= i < |spec.positional| && 0 <= j < |spec.options|
      ensures spec.positional[i].name != spec.options[j].name
    {
      assert names[i] in multiset(names) && options[j] in multiset(options);
      assert NameBag(spec)[options[j]] <= 1;
    }
    if spec.variadic.Some? {
      assert NameBag(spec)[spec.variadic.value.name] <= 1;
      forall i | 0 <= i < |spec.positional|
        ensures spec.positional[i].name != spec.variadic.value.name
      {
        assert names[i] in multiset(names);
      }
      forall i | 0 <= i < |spec.options|
        ensures spec.options[i].name != spec.variadic.value.name
      {
        assert options[i] in multiset(options);
      }
    }
  }

  /** In particular it agrees for every spec with distinct names. */
  lemma ValidationIsExact(def: CommandDef, positional: seq<string>, named: map<string, string>)
    requires DistinctNames(def.args)
    ensures Provided(def, positional, named) <==> RequiredBound(def, positional, named)
  {
    DistinctIsUnshadowed(def.args);
    if Provided(def, positional, named) {
      ProvidedIsBound(def, positional, named);
    }
    if RequiredBound(def, positional, named) {
      BoundIsProvided(def, positional, named);
    }
  }

  lemma DistinctIsUnshadowed(spec: Spec)
    requires DistinctNames(spec)
    ensures Unshadowed(spec)
  {
    OneArgumentEach(spec);
  }

  /** Main result, other half: each argument's value, by precedence. */
  lemma ValuesFollowPrecedence(def: CommandDef, positional: seq<string>, named: map<string, string>, key: string)
    requires DistinctNames(def.args)
    ensures key in named ==> Lookup(def, positional, named, key) == Some(named[key])
    ensures key !in named ==>
              forall i :: 0 <= i < |def.args.positional| && def.args.positional[i].name == key ==>
                Lookup(def, positional, named, key)
                == if i < |positional| then Some(positional[i]) else Find(def.defaults, key)
    ensures key !in named && def.args.variadic.Some? && def.args.variadic.value.name == key ==>
              Lookup(def, positional, named, key)
              == if |positional| > |def.args.positional| then Some(JoinWords(positional[|def.args.positional|..]))
                 else Find(def.defaults, key)
    ensures key !in named && (forall i :: 0 <= i < |def.args.positional| ==> def.args.positional[i].name != key)
            && !(def.args.variadic.Some? && def.args.variadic.value.name == key) ==>
              Lookup(def, positional, named, key) == Find(def.defaults, key)
  {
    OneArgumentEach(def.args);
  }

  /** Any spec that was parsed has distinct names, so validation is exact for it. */
  lemma ParsedValidationIsExact(text: string)
    requires Parse(text).Ok?
    ensures Exact(Parse(text).value)
  {
    ParsedSpecsAreSound(text);
    DistinctIsUnshadowed(Parse(text).value);
    ExactIffUnshadowed(Parse(text).value);
  }

  /** A spec that was not parsed from text can repeat a name, and then validation can refuse input that
      binds every required name: the second `a` is missing, though `a` has a value. */
  lemma RepeatedNamesAreStricter()
    ensures var a := ArgDef("a", true);
            var def := CommandDef(Spec([a, a], [], [], None), map[]);
            !Provided(def, ["x"], map[]) && RequiredBound(def, ["x"], map[])
  {
    var a := ArgDef("a", true);
    var def := CommandDef(Spec([a, a], [], [], None), map[]);
    assert !PositionalGiven(def, ["x"], map[], 1);
  }
}
