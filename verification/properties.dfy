/** What the argument list built by the runner promises: the inputs come
    first, the options follow in the fixed order, each setting contributes
    exactly its own tokens, and the constraints the settings document are
    not enforced. */
module ArgumentProperties {
  import opened Wrappers
  import opened Text
  import opened Settings
  import opened Tokens
  import opened Options
  import opened Runner

  // ---------------------------------------------------------------------
  // Facts about `Flatten`

  lemma {:induction false} FlattenAppend(a: seq<Opt>, b: seq<Opt>, f: Opt -> seq<Token>)
    ensures Flatten(a + b, f) == Flatten(a, f) + Flatten(b, f)
    decreases |a|
  {
    if |a| == 0 {
      assert a + b == b;
    } else {
      assert (a + b)[1..] == a[1..] + b;
      FlattenAppend(a[1..], b, f);
    }
  }

  /** The tokens of `os` are those before position `k`, those of `os[k]`,
      then those after it. */
  lemma FlattenSplit(os: seq<Opt>, k: nat, f: Opt -> seq<Token>)
    requires k < |os|
    ensures Flatten(os, f) == Flatten(os[..k], f) + f(os[k]) + Flatten(os[k + 1..], f)
  {
    assert os == os[..k] + os[k..];
    FlattenAppend(os[..k], os[k..], f);
    assert os[k..][1..] == os[k + 1..];
  }

  /** Settings that are all absent contribute nothing. */
  lemma {:induction false} FlattenAllOff(os: seq<Opt>, s: Settings, abs: Path -> string)
    requires forall i :: 0 <= i < |os| ==> Setting(os[i], s, abs) == Off
    ensures Flatten(os, ContributionOf(s, abs)) == []
    decreases |os|
  {
    if |os| > 0 {
      FlattenAllOff(os[1..], s, abs);
    }
  }

  /** Settings on which two records agree contribute the same tokens. */
  lemma {:induction false} FlattenAgree(os: seq<Opt>, s1: Settings, s2: Settings, abs: Path -> string)
    requires forall i :: 0 <= i < |os| ==> Setting(os[i], s1, abs) == Setting(os[i], s2, abs)
    ensures Flatten(os, ContributionOf(s1, abs)) == Flatten(os, ContributionOf(s2, abs))
    decreases |os|
  {
    if |os| > 0 {
      FlattenAgree(os[1..], s1, s2, abs);
    }
  }

  lemma FlattenAllOffExcept(os: seq<Opt>, o: Opt, s: Settings, abs: Path -> string)
    requires o !in os
    requires forall o': Opt :: o' != o ==> Setting(o', s, abs) == Off
    ensures Flatten(os, ContributionOf(s, abs)) == []
  {
    FlattenAllOff(os, s, abs);
  }

  lemma FlattenAgreeExcept(os: seq<Opt>, o: Opt, s1: Settings, s2: Settings, abs: Path -> string)
    requires o !in os
    requires forall o': Opt :: o' != o ==> Setting(o', s1, abs) == Setting(o', s2, abs)
    ensures Flatten(os, ContributionOf(s1, abs)) == Flatten(os, ContributionOf(s2, abs))
  {
    FlattenAgree(os, s1, s2, abs);
  }

  // ---------------------------------------------------------------------
  // Inputs first

  /** The option tokens are empty or start with an option name. */
  lemma {:induction false} FlattenStartsWithFlag(os: seq<Opt>, s: Settings, abs: Path -> string)
    ensures var ts := Flatten(os, ContributionOf(s, abs));
            |ts| > 0 ==> ts[0].Plain?
    decreases |os|
  {
    if |os| > 0 {
      FlattenStartsWithFlag(os[1..], s, abs);
    }
  }

  /** The argument list starts with one quoted absolute path per input
      file, in the caller's order; what follows depends on the settings
      alone and, when not empty, begins with an option name, so no option
      precedes or interleaves with the inputs. */
  lemma InputsComeFirst(inputs: seq<Path>, s: Settings, abs: Path -> string)
    ensures var args := Arguments(inputs, s, abs);
            && |args| >= |inputs|
            && (forall i :: 0 <= i < |inputs| ==> args[i] == Quoted(abs(inputs[i])))
            && args[|inputs|..] == OptionTokens(s, abs)
            && (|args| > |inputs| ==> args[|inputs|].Plain?)
  {
    var args := Arguments(inputs, s, abs);
    assert args[|inputs|..] == OptionTokens(s, abs);
    FlattenStartsWithFlag(Order(), s, abs);
  }

  /** Every setting absent: the argument list is the inputs and nothing else. */
  lemma AllOffMeansOnlyInputs(inputs: seq<Path>, s: Settings, abs: Path -> string)
    requires forall o: Opt :: Setting(o, s, abs) == Off
    ensures Arguments(inputs, s, abs) == InputTokens(inputs, abs)
  {
    assert forall i :: 0 <= i < |Order()| ==> Setting(Order()[i], s, abs) == Off;
    FlattenAllOff(Order(), s, abs);
    assert OptionTokens(s, abs) == [];
  }

  /** A record as constructed, with every flag false and every field
      null, has every setting absent. */
  lemma DefaultIsAllOff(o: Opt, abs: Path -> string)
    ensures Setting(o, Default, abs) == Off
  {
  }

  /** With default settings the argument list is the quoted inputs; with no
      inputs it is empty. */
  lemma DefaultSettingsOnlyInputs(inputs: seq<Path>, abs: Path -> string)
    ensures Arguments(inputs, Default, abs) == InputTokens(inputs, abs)
    ensures |Arguments(inputs, Default, abs)| == |inputs|
  {
    forall o: Opt
      ensures Setting(o, Default, abs) == Off
    {
      DefaultIsAllOff(o, abs);
    }
    AllOffMeansOnlyInputs(inputs, Default, abs);
  }

  /** With no input files only option tokens are produced. */
  lemma NoInputsOnlyOptions(s: Settings, abs: Path -> string)
    ensures Arguments([], s, abs) == OptionTokens(s, abs)
  {
    var opts := OptionTokens(s, abs);
    assert InputTokens([], abs) == [];
    assert Arguments([], s, abs) == [] + opts == opts;
  }

  // ---------------------------------------------------------------------
  // Fixed order

  /** The names of the present settings among `os`, in order. */
  function ActiveFlags(os: seq<Opt>, s: Settings, abs: Path -> string): (flags: seq<string>) {
    if |os| == 0 then []
    else (if Setting(os[0], s, abs) != Off then [Flag(os[0])] else [])
         + ActiveFlags(os[1..], s, abs)
  }

  lemma {:induction false} PlainsOfInputs(xs: seq<string>)
    ensures Plains(QuoteAll(xs)) == []
    decreases |xs|
  {
    if |xs| > 0 {
      PlainsOfInputs(xs[1..]);
      assert QuoteAll(xs)[1..] == QuoteAll(xs[1..]);
    }
  }

  lemma {:induction false} PlainsOfOptions(os: seq<Opt>, s: Settings, abs: Path -> string)
    ensures Plains(Flatten(os, ContributionOf(s, abs))) == ActiveFlags(os, s, abs)
    decreases |os|
  {
    if |os| > 0 {
      var c := Contribution(os[0], s, abs);
      PlainsAppend(c, Flatten(os[1..], ContributionOf(s, abs)));
      PlainsOfOptions(os[1..], s, abs);
      if c != [] {
        assert c[1..] == [] || c[1..] == [c[1]];
      }
    }
  }

  /** Reading the argument list, the only bare tokens are the names of the
      present settings, and they appear in `Order()` whatever the settings
      are. */
  lemma FlagsInFixedOrder(inputs: seq<Path>, s: Settings, abs: Path -> string)
    ensures Plains(Arguments(inputs, s, abs)) == ActiveFlags(Order(), s, abs)
  {
    PlainsAppend(InputTokens(inputs, abs), OptionTokens(s, abs));
    PlainsOfInputs(AbsAll(inputs, abs));
    PlainsOfOptions(Order(), s, abs);
  }

  lemma {:induction false} InActiveFlags(os: seq<Opt>, s: Settings, abs: Path -> string, o: Opt)
    ensures Flag(o) in ActiveFlags(os, s, abs) <==> (o in os && Setting(o, s, abs) != Off)
    decreases |os|
  {
    if |os| > 0 {
      FlagInjective(os[0], o);
      InActiveFlags(os[1..], s, abs, o);
      assert os == [os[0]] + os[1..];
    }
  }

  lemma {:induction false} ActiveFlagsDistinct(os: seq<Opt>, s: Settings, abs: Path -> string)
    requires forall i, j :: 0 <= i < j < |os| ==> os[i] != os[j]
    ensures var fs := ActiveFlags(os, s, abs);
            forall i, j :: 0 <= i < j < |fs| ==> fs[i] != fs[j]
    decreases |os|
  {
    if |os| > 0 {
      ActiveFlagsDistinct(os[1..], s, abs);
      InActiveFlags(os[1..], s, abs, os[0]);
      assert os[0] !in os[1..];
    }
  }

  /** No option name appears twice on the command line. */
  lemma FlagsAppearOnce(inputs: seq<Path>, s: Settings, abs: Path -> string)
    ensures var fs := Plains(Arguments(inputs, s, abs));
            forall i, j :: 0 <= i < j < |fs| ==> fs[i] != fs[j]
  {
    FlagsInFixedOrder(inputs, s, abs);
    OrderIsPermutation();
    ActiveFlagsDistinct(Order(), s, abs);
  }

  /** A setting's name is on the command line exactly when the setting is
      present. */
  lemma FlagPresentIffSet(inputs: seq<Path>, s: Settings, abs: Path -> string, o: Opt)
    ensures Plain(Flag(o)) in Arguments(inputs, s, abs) <==> Setting(o, s, abs) != Off
  {
    FlagsInFixedOrder(inputs, s, abs);
    PlainIn(Arguments(inputs, s, abs), Flag(o));
    InActiveFlags(Order(), s, abs, o);
    OrderIsPermutation();
  }

  // ---------------------------------------------------------------------
  // Each setting's own tokens

  /** The tokens of the settings before `o` in `Order()`. */
  function OptionsBefore(o: Opt, s: Settings, abs: Path -> string): (ts: seq<Token>) {
    Flatten(Order()[..Index(o)], ContributionOf(s, abs))
  }

  /** The tokens of the settings after `o` in `Order()`. */
  function OptionsAfter(o: Opt, s: Settings, abs: Path -> string): (ts: seq<Token>) {
    Flatten(Order()[Index(o) + 1..], ContributionOf(s, abs))
  }

  /** The tokens of a setting sit between those of every setting before it
      in `Order()` and those of every later one. */
  lemma OptionsAround(s: Settings, abs: Path -> string, o: Opt)
    ensures OptionTokens(s, abs)
         == OptionsBefore(o, s, abs) + Contribution(o, s, abs) + OptionsAfter(o, s, abs)
  {
    FlattenSplit(Order(), Index(o), ContributionOf(s, abs));
  }

  /** ... and all of them after the inputs. */
  lemma ArgumentsAround(inputs: seq<Path>, s: Settings, abs: Path -> string, o: Opt)
    ensures Arguments(inputs, s, abs)
         == InputTokens(inputs, abs)
          + (OptionsBefore(o, s, abs) + Contribution(o, s, abs) + OptionsAfter(o, s, abs))
  {
    OptionsAround(s, abs, o);
  }

  /** A setting that carries a value puts its name immediately followed by
      the quoted value on the command line. */
  lemma ValueFollowsFlag(inputs: seq<Path>, s: Settings, abs: Path -> string, o: Opt)
    requires Setting(o, s, abs).Value?
    ensures var args := Arguments(inputs, s, abs);
            exists k :: 0 <= k && k + 1 < |args|
              && args[k] == Plain(Flag(o)) && args[k + 1] == Quoted(Setting(o, s, abs).text)
  {
    ArgumentsAround(inputs, s, abs, o);
    ValueContribution(o, s, abs);
    PairInMiddle(Arguments(inputs, s, abs), InputTokens(inputs, abs), OptionsBefore(o, s, abs),
      Contribution(o, s, abs), OptionsAfter(o, s, abs), Plain(Flag(o)), Quoted(Setting(o, s, abs).text));
  }

  lemma ValueContribution(o: Opt, s: Settings, abs: Path -> string)
    requires Setting(o, s, abs).Value?
    ensures Contribution(o, s, abs) == [Plain(Flag(o)), Quoted(Setting(o, s, abs).text)]
  {
  }

  /** A two-token middle part occurs, in order, in the whole sequence. */
  lemma PairInMiddle(all: seq<Token>, a: seq<Token>, b: seq<Token>, c: seq<Token>, d: seq<Token>,
                     x: Token, y: Token)
    requires all == a + (b + c + d) && c == [x, y]
    ensures exists k :: 0 <= k && k + 1 < |all| && all[k] == x && all[k + 1] == y
  {
    var k := |a| + |b|;
    assert all[k] == x && all[k + 1] == y;
  }


  /** A switch puts its bare name on the command line exactly when it is
      true. Compared with the same settings with the switch cleared, a true
      switch inserts that one token and nothing else, and a false one
      changes nothing. */
  lemma SwitchOption(inputs: seq<Path>, s: Settings, abs: Path -> string, o: Opt)
    requires KindOf(o) == Switch
    ensures Plain(Flag(o)) in Arguments(inputs, s, abs) <==> SwitchField(o, s)
    ensures var on := Arguments(inputs, s, abs);
            var off := Arguments(inputs, Reset(o, s), abs);
            SwitchField(o, s) ==>
              exists k :: 0 <= k <= |off| && on == off[..k] + [Plain(Flag(o))] + off[k..]
    ensures !SwitchField(o, s) ==> Arguments(inputs, s, abs) == Arguments(inputs, Reset(o, s), abs)
  {
    FlagPresentIffSet(inputs, s, abs, o);
    var s' := Reset(o, s);
    ResetAgreesElsewhere(s, abs, o);
    ResetOnlyTouches(o, o, s, abs);
    ClearedIsLocal(inputs, s, s', abs, o);
    var ins, before, after := InputTokens(inputs, abs), OptionsBefore(o, s, abs), OptionsAfter(o, s, abs);
    var c := Contribution(o, s, abs);
    if SwitchField(o, s) {
      assert c == [Plain(Flag(o))];
      InsertOne(ins, before, Plain(Flag(o)), after);
    } else {
      assert c == [];
      DropEmpty(before, c, after);
    }
  }

  /** Inserting one element between `before` and `after` is inserting it
      into the whole at the position where `after` starts. */
  lemma InsertOne<T>(ins: seq<T>, before: seq<T>, x: T, after: seq<T>)
    ensures var all := ins + (before + after);
            exists k :: 0 <= k <= |all| && ins + (before + [x] + after) == all[..k] + [x] + all[k..]
  {
    var all := ins + (before + after);
    var k := |ins| + |before|;
    assert all[..k] == ins + before && all[k..] == after;
  }

  /** Settings that differ from `s` only in that `o` is off: `o`'s tokens
      are gone and all others stay in place. */
  lemma ClearedIsLocal(inputs: seq<Path>, s: Settings, s': Settings, abs: Path -> string, o: Opt)
    requires Setting(o, s', abs) == Off
    requires forall o': Opt :: o' != o ==> Setting(o', s, abs) == Setting(o', s', abs)
    ensures Arguments(inputs, s, abs)
         == InputTokens(inputs, abs)
          + (OptionsBefore(o, s, abs) + Contribution(o, s, abs) + OptionsAfter(o, s, abs))
    ensures Arguments(inputs, s', abs)
         == InputTokens(inputs, abs) + (OptionsBefore(o, s, abs) + OptionsAfter(o, s, abs))
  {
    ChangeIsLocal(inputs, s, s', abs, o);
    var before, after := OptionsBefore(o, s, abs), OptionsAfter(o, s, abs);
    var c' := Contribution(o, s', abs);
    assert c' == [];
    DropEmpty(before, c', after);
  }

  lemma DropEmpty<T>(a: seq<T>, e: seq<T>, b: seq<T>)
    requires e == []
    ensures a + e + b == a + b
  {
  }

  /** Clearing setting `o` leaves every other setting as it was. */
  lemma ResetAgreesElsewhere(s: Settings, abs: Path -> string, o: Opt)
    ensures forall o': Opt :: o' != o ==> Setting(o', s, abs) == Setting(o', Reset(o, s), abs)
  {
    forall o': Opt | o' != o
      ensures Setting(o', s, abs) == Setting(o', Reset(o, s), abs)
    {
      ResetOnlyTouches(o, o', s, abs);
    }
  }

  /** A file setting appears exactly when it is non-null, and then its name
      is followed by the quoted absolute path. */
  lemma FileOption(inputs: seq<Path>, s: Settings, abs: Path -> string, o: Opt)
    requires KindOf(o) == FileArg
    ensures Plain(Flag(o)) in Arguments(inputs, s, abs) <==> PathField(o, s).Some?
    ensures PathField(o, s).Some? ==>
              var args := Arguments(inputs, s, abs);
              exists k :: 0 <= k && k + 1 < |args|
                && args[k] == Plain(Flag(o)) && args[k + 1] == Quoted(abs(PathField(o, s).value))
  {
    FlagPresentIffSet(inputs, s, abs, o);
    if PathField(o, s).Some? {
      ValueFollowsFlag(inputs, s, abs, o);
    }
  }

  /** A string setting appears exactly when it is neither null nor white
      space only, and then its name is followed by the string as given,
      quoted and not made absolute. */
  lemma TextOption(inputs: seq<Path>, s: Settings, abs: Path -> string, o: Opt)
    requires KindOf(o) == TextArg
    ensures Plain(Flag(o)) in Arguments(inputs, s, abs) <==> !IsNullOrWhiteSpace(TextField(o, s))
    ensures !IsNullOrWhiteSpace(TextField(o, s)) ==>
              var args := Arguments(inputs, s, abs);
              exists k :: 0 <= k && k + 1 < |args|
                && args[k] == Plain(Flag(o)) && args[k + 1] == Quoted(TextField(o, s).value)
  {
    FlagPresentIffSet(inputs, s, abs, o);
    if !IsNullOrWhiteSpace(TextField(o, s)) {
      ValueFollowsFlag(inputs, s, abs, o);
    }
  }

  /** An empty or white-space string setting leaves no trace. */
  lemma BlankTextOmitted(inputs: seq<Path>, s: Settings, abs: Path -> string, o: Opt)
    requires KindOf(o) == TextArg
    requires TextField(o, s).Some?
    requires forall i :: 0 <= i < |TextField(o, s).value| ==> IsWhiteSpace(TextField(o, s).value[i])
    ensures Plain(Flag(o)) !in Arguments(inputs, s, abs)
    ensures Arguments(inputs, s, abs) == Arguments(inputs, Reset(o, s), abs)
  {
    assert IsNullOrWhiteSpace(TextField(o, s));
    TextOption(inputs, s, abs, o);
    var cleared := Reset(o, s);
    forall o' | o' != o
      ensures Setting(o', s, abs) == Setting(o', cleared, abs)
    {
      ResetOnlyTouches(o, o', s, abs);
    }
    ResetOnlyTouches(o, o, s, abs);
    assert Contribution(o, s, abs) == [] == Contribution(o, cleared, abs);
    ChangeIsLocal(inputs, s, cleared, abs, o);
  }

  /** `--probing-paths` is on the command line exactly when the list is
      non-null, empty or not. */
  lemma ProbingPathsOption(inputs: seq<Path>, s: Settings, abs: Path -> string)
    ensures Plain("--probing-paths") in Arguments(inputs, s, abs) <==> s.probingPaths.Some?
  {
    ProbingPathsSetting(s, abs);
    assert Flag(ProbingPaths) == "--probing-paths";
    FlagPresentIffSet(inputs, s, abs, ProbingPaths);
  }

  /** Non-null probing paths put `--probing-paths` followed by one quoted
      token: the paths made absolute and joined with `;` in list order. */
  lemma ProbingPathsValue(inputs: seq<Path>, s: Settings, abs: Path -> string)
    requires s.probingPaths.Some?
    ensures var args := Arguments(inputs, s, abs);
            exists k :: 0 <= k && k + 1 < |args|
              && args[k] == Plain("--probing-paths")
              && args[k + 1] == Quoted(Join(";", AbsAll(s.probingPaths.value, abs)))
  {
    ProbingPathsSetting(s, abs);
    assert Flag(ProbingPaths) == "--probing-paths";
    ValueFollowsFlag(inputs, s, abs, ProbingPaths);
  }

  /** The value of the probing-path setting: absent for a null list, else
      the absolute paths joined with `;`, which is empty for an empty
      list. */
  lemma ProbingPathsSetting(s: Settings, abs: Path -> string)
    ensures s.probingPaths.None? ==> Setting(ProbingPaths, s, abs) == Off
    ensures s.probingPaths.Some? ==>
              Setting(ProbingPaths, s, abs) == Value(Join(";", AbsAll(s.probingPaths.value, abs)))
    ensures s.probingPaths == Some([]) ==> Setting(ProbingPaths, s, abs) == Value("")
  {
  }

  /** An empty probing-path list is still passed on: `--probing-paths`
      followed by a quoted empty string. */
  lemma EmptyProbingPathsEmitted(inputs: seq<Path>, s: Settings, abs: Path -> string)
    requires s.probingPaths == Some([])
    ensures var args := Arguments(inputs, s, abs);
            exists k :: 0 <= k && k + 1 < |args|
              && args[k] == Plain("--probing-paths") && args[k + 1] == Quoted("")
  {
    ProbingPathsValue(inputs, s, abs);
    assert Join(";", AbsAll(s.probingPaths.value, abs)) == "";
  }

  /** The joined probing-path value keeps every path and its position:
      when the list is not empty and no absolute path contains `;`,
      splitting the value at `;` gives the absolute paths back in order. */
  lemma ProbingPathsRecoverable(s: Settings, abs: Path -> string)
    requires s.probingPaths.Some? && |s.probingPaths.value| > 0
    requires forall i :: 0 <= i < |s.probingPaths.value| ==> ';' !in abs(s.probingPaths.value[i])
    ensures Setting(ProbingPaths, s, abs).Value?
    ensures Split(Setting(ProbingPaths, s, abs).text, ';') == AbsAll(s.probingPaths.value, abs)
  {
    SplitJoin(AbsAll(s.probingPaths.value, abs), ';');
  }

  // ---------------------------------------------------------------------
  // Locality and size

  /** Only one setting present: the argument list is the inputs followed
      by that setting's tokens. */
  lemma OnlyOneSetting(inputs: seq<Path>, s: Settings, abs: Path -> string, o: Opt)
    requires forall o': Opt :: o' != o ==> Setting(o', s, abs) == Off
    ensures Arguments(inputs, s, abs) == InputTokens(inputs, abs) + Contribution(o, s, abs)
  {
    OnlyOneSettingOptions(s, abs, o);
    assert Arguments(inputs, s, abs) == InputTokens(inputs, abs) + OptionTokens(s, abs);
  }

  lemma OnlyOneSettingOptions(s: Settings, abs: Path -> string, o: Opt)
    requires forall o': Opt :: o' != o ==> Setting(o', s, abs) == Off
    ensures OptionTokens(s, abs) == Contribution(o, s, abs)
  {
    NothingBefore(s, abs, o);
    NothingAfter(s, abs, o);
    OptionsAround(s, abs, o);
  }

  lemma NothingBefore(s: Settings, abs: Path -> string, o: Opt)
    requires forall o': Opt :: o' != o ==> Setting(o', s, abs) == Off
    ensures OptionsBefore(o, s, abs) == []
  {
    OrderAroundExcludes(o);
    FlattenAllOffExcept(Order()[..Index(o)], o, s, abs);
  }

  lemma NothingAfter(s: Settings, abs: Path -> string, o: Opt)
    requires forall o': Opt :: o' != o ==> Setting(o', s, abs) == Off
    ensures OptionsAfter(o, s, abs) == []
  {
    OrderAroundExcludes(o);
    FlattenAllOffExcept(Order()[Index(o) + 1..], o, s, abs);
  }

  /** Two records that differ only in setting `o` give argument lists that
      share everything outside `o`'s own tokens. */
  lemma ChangeIsLocal(inputs: seq<Path>, s1: Settings, s2: Settings, abs: Path -> string, o: Opt)
    requires forall o': Opt :: o' != o ==> Setting(o', s1, abs) == Setting(o', s2, abs)
    ensures OptionsBefore(o, s1, abs) == OptionsBefore(o, s2, abs)
    ensures OptionsAfter(o, s1, abs) == OptionsAfter(o, s2, abs)
    ensures Arguments(inputs, s1, abs)
         == InputTokens(inputs, abs)
          + (OptionsBefore(o, s1, abs) + Contribution(o, s1, abs) + OptionsAfter(o, s1, abs))
    ensures Arguments(inputs, s2, abs)
         == InputTokens(inputs, abs)
          + (OptionsBefore(o, s1, abs) + Contribution(o, s2, abs) + OptionsAfter(o, s1, abs))
  {
    OrderAroundExcludes(o);
    FlattenAgreeExcept(Order()[..Index(o)], o, s1, s2, abs);
    FlattenAgreeExcept(Order()[Index(o) + 1..], o, s1, s2, abs);
    assert OptionsBefore(o, s1, abs) == OptionsBefore(o, s2, abs);
    assert OptionsAfter(o, s1, abs) == OptionsAfter(o, s2, abs);
    ArgumentsAround(inputs, s1, abs, o);
    ArgumentsAround(inputs, s2, abs, o);
  }

  lemma {:induction false} FlattenWidth(os: seq<Opt>, s: Settings, abs: Path -> string)
    ensures |Flatten(os, ContributionOf(s, abs))| == TotalWidth(Values(os, s, abs))
    decreases |os|
  {
    if |os| > 0 {
      FlattenWidth(os[1..], s, abs);
      assert Values(os, s, abs)[1..] == Values(os[1..], s, abs);
    }
  }

  lemma {:induction false} TotalWidthBounded(vs: seq<OptionValue>)
    ensures TotalWidth(vs) <= 2 * |vs|
    decreases |vs|
  {
    if |vs| > 0 {
      TotalWidthBounded(vs[1..]);
    }
  }

  /** The argument list has one token per input plus 0, 1 or 2 per
      setting, so at most two per setting beyond the inputs. */
  lemma ArgumentCount(inputs: seq<Path>, s: Settings, abs: Path -> string)
    ensures |Arguments(inputs, s, abs)| == |inputs| + TotalWidth(Values(Order(), s, abs))
    ensures |Arguments(inputs, s, abs)| <= |inputs| + 2 * |Order()|
  {
    FlattenWidth(Order(), s, abs);
    TotalWidthBounded(Values(Order(), s, abs));
  }

  // ---------------------------------------------------------------------
  // Documented constraints that are not enforced

  /** Key file together with key container is documented as not allowed,
      yet both are passed on. */
  lemma KeyFileWithKeyContainerNotRejected(inputs: seq<Path>, s: Settings, abs: Path -> string)
    requires s.keyFile.Some? && !IsNullOrWhiteSpace(s.keyContainer)
    ensures Plain("--key-file") in Arguments(inputs, s, abs)
    ensures Plain("--key-container") in Arguments(inputs, s, abs)
  {
    assert Setting(KeyFile, s, abs) != Off && Setting(KeyContainer, s, abs) != Off;
    assert Flag(KeyFile) == "--key-file" && Flag(KeyContainer) == "--key-container";
    FlagPresentIffSet(inputs, s, abs, KeyFile);
    FlagPresentIffSet(inputs, s, abs, KeyContainer);
  }

  /** An output file with several inputs is documented as not allowed, yet
      `--output` is still emitted, after all the inputs. */
  lemma OutputWithSeveralInputsNotRejected(inputs: seq<Path>, s: Settings, abs: Path -> string)
    requires |inputs| > 1 && s.outputFile.Some?
    ensures var args := Arguments(inputs, s, abs);
            |args| >= |inputs| && Plain("--output") in args[|inputs|..]
  {
    assert Setting(OutputFile, s, abs) != Off;
    assert Flag(OutputFile) == "--output";
    InputsComeFirst(inputs, s, abs);
    FlagPresentIffSet([], s, abs, OutputFile);
    NoInputsOnlyOptions(s, abs);
  }

  /** The version check is documented as not combinable with other
      options, yet every other present setting is still emitted beside it. */
  lemma CheckVersionNotExclusive(inputs: seq<Path>, s: Settings, abs: Path -> string, o: Opt)
    requires s.checkVersion && Setting(o, s, abs) != Off
    ensures Plain("--check-version") in Arguments(inputs, s, abs)
    ensures Plain(Flag(o)) in Arguments(inputs, s, abs)
  {
    assert Setting(CheckVersion, s, abs) != Off;
    assert Flag(CheckVersion) == "--check-version";
    FlagPresentIffSet(inputs, s, abs, CheckVersion);
    FlagPresentIffSet(inputs, s, abs, o);
  }

  /** Protecting and unprotecting "should be used with" a project path,
      yet both are emitted without one, and together. */
  lemma ProtectionWithoutProjectPath(inputs: seq<Path>, s: Settings, abs: Path -> string)
    requires s.protectProject && s.unprotectProject && s.msBuildProjectPath.None?
    ensures Plain("--protect-project") in Arguments(inputs, s, abs)
    ensures Plain("--unprotect-project") in Arguments(inputs, s, abs)
    ensures Plain("--msbuild-project-path") !in Arguments(inputs, s, abs)
  {
    assert Setting(ProtectProject, s, abs) != Off && Setting(UnprotectProject, s, abs) != Off;
    assert Setting(MSBuildProjectPath, s, abs) == Off;
    assert Flag(ProtectProject) == "--protect-project";
    assert Flag(UnprotectProject) == "--unprotect-project";
    assert Flag(MSBuildProjectPath) == "--msbuild-project-path";
    FlagPresentIffSet(inputs, s, abs, ProtectProject);
    FlagPresentIffSet(inputs, s, abs, UnprotectProject);
    FlagPresentIffSet(inputs, s, abs, MSBuildProjectPath);
  }
}
