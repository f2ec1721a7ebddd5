/** Reading an argument list back: the leading quoted tokens are the input
    paths, and the rest is matched against `Order()` one setting at a time.
    Decoding inverts the runner's output, so the argument list loses
    nothing about the inputs or the settings' values. */
module Decoding {
  import opened Wrappers
  import opened Settings
  import opened Tokens
  import opened Options
  import opened Runner
  import opened ArgumentProperties

  /** The input paths and the value of every setting, in `Order()`. */
  datatype Parsed = Parsed(inputs: seq<string>, values: seq<OptionValue>)

  /** The number of quoted tokens before the first bare one. */
  function LeadingQuoted(ts: seq<Token>): (n: nat)
    ensures n <= |ts|
    ensures forall i :: 0 <= i < n ==> ts[i].Quoted?
    ensures n < |ts| ==> ts[n].Plain?
  {
    if |ts| == 0 || ts[0].Plain? then 0 else 1 + LeadingQuoted(ts[1..])
  }

  /** The texts of the tokens, in order. */
  function Texts(ts: seq<Token>): (r: seq<string>)
    ensures |r| == |ts|
    ensures forall i :: 0 <= i < |ts| ==> r[i] == ts[i].text
  {
    if |ts| == 0 then [] else [ts[0].text] + Texts(ts[1..])
  }

  /** The values of the settings `os` that `ts` spells out, or `None` when
      `ts` is not the tokens of those settings in that order. A setting is
      present when the next token is its name; a switch then stands alone,
      any other setting needs a quoted value next. */
  function DecodeOptions(ts: seq<Token>, os: seq<Opt>): (r: Option<seq<OptionValue>>)
    ensures r.Some? ==> |r.value| == |os|
    ensures r.Some? ==> forall i :: 0 <= i < |os| ==> Fits(os[i], r.value[i])
    decreases |os|
  {
    if |os| == 0 then
      if |ts| == 0 then Some([]) else None
    else if |ts| > 0 && ts[0] == Plain(Flag(os[0])) then
      if KindOf(os[0]) == Switch then
        match DecodeOptions(ts[1..], os[1..])
        case None => None
        case Some(rest) => Some([On] + rest)
      else if |ts| > 1 && ts[1].Quoted? then
        match DecodeOptions(ts[2..], os[1..])
        case None => None
        case Some(rest) => Some([Value(ts[1].text)] + rest)
      else None
    else
      match DecodeOptions(ts, os[1..])
      case None => None
      case Some(rest) => Some([Off] + rest)
  }

  /** The inputs and settings an argument list stands for, if any. */
  function Decode(ts: seq<Token>): (r: Option<Parsed>)
    ensures r.Some? ==> |r.value.values| == |Order()|
    ensures r.Some? ==> |r.value.inputs| <= |ts|
    ensures r.Some? ==> forall i :: 0 <= i < |r.value.inputs| ==> ts[i] == Quoted(r.value.inputs[i])
  {
    var n := LeadingQuoted(ts);
    match DecodeOptions(ts[n..], Order())
    case None => None
    case Some(vs) => Some(Parsed(Texts(ts[..n]), vs))
  }

  // ---------------------------------------------------------------------
  // Emitting and decoding are inverse

  /** The tokens of settings `os` start, if at all, with the name of one of
      them. */
  lemma {:induction false} EmitAllHead(os: seq<Opt>, vs: seq<OptionValue>)
    requires |os| == |vs|
    ensures var ts := EmitAll(os, vs);
            |ts| > 0 ==> exists j :: 0 <= j < |os| && ts[0] == Plain(Flag(os[j]))
    decreases |os|
  {
    if |os| > 0 && vs[0].Off? {
      EmitAllHead(os[1..], vs[1..]);
      var ts := EmitAll(os[1..], vs[1..]);
      if |ts| > 0 {
        var j :| 0 <= j < |os[1..]| && ts[0] == Plain(Flag(os[1..][j]));
        assert os[1..][j] == os[j + 1];
      }
    }
  }

  /** Decoding the tokens of fitting values gives the values back. */
  lemma {:induction false} DecodeEmitAll(os: seq<Opt>, vs: seq<OptionValue>)
    requires |os| == |vs|
    requires forall i :: 0 <= i < |os| ==> Fits(os[i], vs[i])
    requires DistinctFlags(os)
    ensures DecodeOptions(EmitAll(os, vs), os) == Some(vs)
    decreases |os|
  {
    if |os| > 0 {
      var rest := EmitAll(os[1..], vs[1..]);
      assert DistinctFlags(os[1..]) by {
        forall i, j | 0 <= i < j < |os[1..]|
          ensures Flag(os[1..][i]) != Flag(os[1..][j])
        {
          assert Flag(os[i + 1]) != Flag(os[j + 1]);
        }
      }
      assert forall i :: 0 <= i < |os[1..]| ==> Fits(os[1..][i], vs[1..][i]) by {
        forall i | 0 <= i < |os[1..]|
          ensures Fits(os[1..][i], vs[1..][i])
        {
          assert Fits(os[i + 1], vs[i + 1]);
        }
      }
      DecodeEmitAll(os[1..], vs[1..]);
      assert vs == [vs[0]] + vs[1..];
      match vs[0]
      case Off =>
        assert EmitAll(os, vs) == rest;
        EmitAllHead(os[1..], vs[1..]);
        if |rest| > 0 {
          var j :| 0 <= j < |os[1..]| && rest[0] == Plain(Flag(os[1..][j]));
          assert Flag(os[0]) != Flag(os[j + 1]);
        }
      case On =>
        assert EmitAll(os, vs) == [Plain(Flag(os[0]))] + rest;
        assert EmitAll(os, vs)[1..] == rest;
      case Value(t) =>
        assert EmitAll(os, vs) == [Plain(Flag(os[0])), Quoted(t)] + rest;
        assert EmitAll(os, vs)[2..] == rest;
    }
  }

  /** Only the tokens of the decoded values decode to them: decoding never
      accepts anything else. */
  lemma {:induction false} DecodeOptionsSound(ts: seq<Token>, os: seq<Opt>)
    requires DecodeOptions(ts, os).Some?
    ensures ts == EmitAll(os, DecodeOptions(ts, os).value)
    decreases |os|
  {
    if |os| > 0 {
      var vs := DecodeOptions(ts, os).value;
      if |ts| > 0 && ts[0] == Plain(Flag(os[0])) {
        if KindOf(os[0]) == Switch {
          DecodeOptionsSound(ts[1..], os[1..]);
          assert vs[1..] == DecodeOptions(ts[1..], os[1..]).value;
          assert ts == [ts[0]] + ts[1..];
        } else {
          DecodeOptionsSound(ts[2..], os[1..]);
          assert vs[1..] == DecodeOptions(ts[2..], os[1..]).value;
          assert ts == [ts[0], ts[1]] + ts[2..];
        }
      } else {
        DecodeOptionsSound(ts, os[1..]);
        assert vs[1..] == DecodeOptions(ts, os[1..]).value;
      }
    }
  }

  /** The option tokens are the values of the settings, emitted in turn. */
  lemma {:induction false} FlattenIsEmitAll(os: seq<Opt>, s: Settings, abs: Path -> string)
    ensures Flatten(os, ContributionOf(s, abs)) == EmitAll(os, Values(os, s, abs))
    decreases |os|
  {
    if |os| > 0 {
      FlattenIsEmitAll(os[1..], s, abs);
      assert Values(os, s, abs)[1..] == Values(os[1..], s, abs);
    }
  }

  /** A run of quoted tokens followed by nothing or a bare token is
      exactly the leading quoted part. */
  lemma {:induction false} LeadingQuotedExact(ts: seq<Token>, n: nat)
    requires n <= |ts|
    requires forall i :: 0 <= i < n ==> ts[i].Quoted?
    requires n < |ts| ==> ts[n].Plain?
    ensures LeadingQuoted(ts) == n
    decreases n
  {
    if n > 0 {
      LeadingQuotedExact(ts[1..], n - 1);
    }
  }

  lemma {:induction false} TextsOfQuoteAll(xs: seq<string>)
    ensures Texts(QuoteAll(xs)) == xs
  {
    var ts := QuoteAll(xs);
    assert |Texts(ts)| == |xs|;
    forall i | 0 <= i < |xs|
      ensures Texts(ts)[i] == xs[i]
    {
      assert ts[i] == Quoted(xs[i]);
    }
  }

  lemma ValuesFit(os: seq<Opt>, s: Settings, abs: Path -> string)
    ensures forall i :: 0 <= i < |os| ==> Fits(os[i], Values(os, s, abs)[i])
  {
  }

  lemma OptionTokensDecode(s: Settings, abs: Path -> string)
    ensures DecodeOptions(OptionTokens(s, abs), Order()) == Some(Values(Order(), s, abs))
  {
    var vs := Values(Order(), s, abs);
    FlattenIsEmitAll(Order(), s, abs);
    assert OptionTokens(s, abs) == EmitAll(Order(), vs);
    ValuesFit(Order(), s, abs);
    OrderHasDistinctFlags();
    DecodeEmitAll(Order(), vs);
  }

  /** Decoding the runner's argument list gives back the absolute input
      paths, in order, and the value of every setting. */
  lemma DecodeArguments(inputs: seq<Path>, s: Settings, abs: Path -> string)
    ensures Decode(Arguments(inputs, s, abs))
         == Some(Parsed(AbsAll(inputs, abs), Values(Order(), s, abs)))
  {
    var args := Arguments(inputs, s, abs);
    InputsComeFirst(inputs, s, abs);
    LeadingQuotedExact(args, |inputs|);
    assert args[..|inputs|] == InputTokens(inputs, abs);
    TextsOfQuoteAll(AbsAll(inputs, abs));
    OptionTokensDecode(s, abs);
  }

  /** Two argument lists are equal exactly when they have the same absolute
      input paths and every setting has the same value: the runner neither
      merges different settings nor tells equal ones apart. */
  lemma ArgumentsDetermineSettings(
    inputs1: seq<Path>, s1: Settings, inputs2: seq<Path>, s2: Settings, abs: Path -> string)
    ensures Arguments(inputs1, s1, abs) == Arguments(inputs2, s2, abs)
        <==> AbsAll(inputs1, abs) == AbsAll(inputs2, abs)
             && forall o: Opt :: Setting(o, s1, abs) == Setting(o, s2, abs)
  {
    if Arguments(inputs1, s1, abs) == Arguments(inputs2, s2, abs) {
      DecodeArguments(inputs1, s1, abs);
      DecodeArguments(inputs2, s2, abs);
      forall o: Opt
        ensures Setting(o, s1, abs) == Setting(o, s2, abs)
      {
        var i := Index(o);
        assert Values(Order(), s1, abs)[i] == Values(Order(), s2, abs)[i];
      }
    }
    if AbsAll(inputs1, abs) == AbsAll(inputs2, abs)
       && forall o: Opt :: Setting(o, s1, abs) == Setting(o, s2, abs)
    {
      FlattenAgree(Order(), s1, s2, abs);
    }
  }
}
