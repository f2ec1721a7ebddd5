/** Command-line tokens as Cake's `ProcessArgumentBuilder` collects them:
    `Append` adds a bare token, `AppendQuoted` a token wrapped in double
    quotes when rendered. */
module Tokens {
  import Text

  datatype Token = Plain(text: string) | Quoted(text: string)

  /** How one token appears in the rendered argument string. */
  function Show(t: Token): (r: string) {
    match t
    case Plain(s) => s
    case Quoted(s) => "\"" + s + "\""
  }

  function ShowAll(ts: seq<Token>): (r: seq<string>)
    ensures |r| == |ts|
    ensures forall i :: 0 <= i < |ts| ==> r[i] == Show(ts[i])
  {
    if |ts| == 0 then [] else [Show(ts[0])] + ShowAll(ts[1..])
  }

  /** The argument string: tokens separated by single spaces. */
  function Render(ts: seq<Token>): (r: string) {
    Text.Join(" ", ShowAll(ts))
  }

  /** The texts of the bare tokens, in order: the option names on a command
      line built by the runner. */
  function Plains(ts: seq<Token>): (r: seq<string>) {
    if |ts| == 0 then []
    else (if ts[0].Plain? then [ts[0].text] else []) + Plains(ts[1..])
  }

  lemma {:induction false} PlainsAppend(a: seq<Token>, b: seq<Token>)
    ensures Plains(a + b) == Plains(a) + Plains(b)
    decreases |a|
  {
    if |a| > 0 {
      assert (a + b)[1..] == a[1..] + b;
      PlainsAppend(a[1..], b);
    } else {
      assert a + b == b;
    }
  }

  /** A bare token with text `t` occurs exactly when `t` is among the bare texts. */
  lemma {:induction false} PlainIn(ts: seq<Token>, t: string)
    ensures Plain(t) in ts <==> t in Plains(ts)
    decreases |ts|
  {
    if |ts| > 0 {
      PlainIn(ts[1..], t);
      assert ts == [ts[0]] + ts[1..];
    }
  }
}
