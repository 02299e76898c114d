/** CAMARA purpose scopes: the grammar gate at every grant, and what it says about a granted scope. */
module PurposeScopes {
  import opened Text
  import opened Wrappers

  const DPV_PREFIX := "dpv:"

  predicate IsActionChar(c: char) {
    IsAlphanumeric(c) || c == '-' || c == '_' || c == '.' || c == ':'
  }

  function Count(s: string, c: char): nat {
    if s == [] then 0 else (if s[0] == c then 1 else 0) + Count(s[1..], c)
  }

  /** A technical scope passes untouched; a `dpv:` one needs one `#` between a purpose and an action. */
  predicate IsValidToken(token: string) {
    if !StartsWith(token, DPV_PREFIX) then true
    else
      var body := token[|DPV_PREFIX|..];
      if Count(body, '#') != 1 then false
      else
        var i := IndexOf(body, '#');
        CountedIsFound(body, '#');
        var purpose, action := body[..i], body[i + 1..];
        purpose != "" && All(purpose, IsAlphanumeric) && action != "" && All(action, IsActionChar)
  }

  /** The purpose-scope grammar: `dpv:`, letters and digits, `#`, action characters. */
  ghost predicate InGrammar(token: string) {
    exists purpose, action :: IsPurposeScope(token, purpose, action)
  }

  predicate IsPurposeScope(token: string, purpose: string, action: string) {
    purpose != "" && All(purpose, IsAlphanumeric) && action != "" && All(action, IsActionChar)
    && token == DPV_PREFIX + purpose + ['#'] + action
  }

  lemma {:induction false} CountedIsFound(s: string, c: char)
    ensures Count(s, c) > 0 ==> IndexOf(s, c) < |s|
    ensures c !in s ==> Count(s, c) == 0
  {
    if s != [] {
      CountedIsFound(s[1..], c);
    }
  }

  lemma {:induction false} CountOfJoined(a: string, c: char, b: string)
    ensures Count(a + [c] + b, c) == Count(a, c) + 1 + Count(b, c)
  {
    var s := a + [c] + b;
    if a == [] {
      assert s[1..] == b;
    } else {
      assert s[1..] == a[1..] + [c] + b;
      CountOfJoined(a[1..], c, b);
    }
  }

  /** The character-by-character check decides the grammar. */
  lemma CheckDecidesGrammar(token: string)
    ensures IsValidToken(token) <==> !StartsWith(token, DPV_PREFIX) || InGrammar(token)
  {
    hide IndexOf, Count;
    if StartsWith(token, DPV_PREFIX) {
      var body := token[|DPV_PREFIX|..];
      assert token == DPV_PREFIX + body;
      if IsValidToken(token) {
        var i := IndexOf(body, '#');
        CountedIsFound(body, '#');
        assert body == body[..i] + ['#'] + body[i + 1..];
        assert IsPurposeScope(token, body[..i], body[i + 1..]);
      } else if InGrammar(token) {
        var purpose, action :| IsPurposeScope(token, purpose, action);
        GrammarPassesCheck(token, purpose, action);
        assert false;
      }
    }
  }

  lemma GrammarPassesCheck(token: string, purpose: string, action: string)
    requires IsPurposeScope(token, purpose, action)
    ensures IsValidToken(token)
  {
    hide IndexOf, Count;
    var body := token[|DPV_PREFIX|..];
    assert body == purpose + ['#'] + action;
    assert '#' !in purpose && '#' !in action;
    FirstIndex(purpose, '#', action);
    CountOfJoined(purpose, '#', action);
    CountedIsFound(purpose, '#');
    CountedIsFound(action, '#');
    assert body[..|purpose|] == purpose && body[|purpose| + 1..] == action;
  }

  // ----- scope strings -----

  /** Empty tokens, from extra spaces, are ignored. */
  predicate IsAcceptable(token: string) {
    token == "" || IsValidToken(token)
  }

  function FirstOffender(tokens: seq<string>): Option<string> {
    if tokens == [] then None
    else if !IsAcceptable(tokens[0]) then Some(tokens[0])
    else FirstOffender(tokens[1..])
  }

  predicate IsLeftmostOffender(tokens: seq<string>, i: int) {
    0 <= i < |tokens| && !IsAcceptable(tokens[i]) && forall j :: 0 <= j < i ==> IsAcceptable(tokens[j])
  }

  /** A refusal names the leftmost offender, and there is one exactly when some token is unacceptable. */
  lemma {:induction false} RefusalNamesLeftmost(tokens: seq<string>)
    ensures FirstOffender(tokens).None? <==> forall i :: 0 <= i < |tokens| ==> IsAcceptable(tokens[i])
    ensures forall i :: IsLeftmostOffender(tokens, i) ==> FirstOffender(tokens) == Some(tokens[i])
  {
    hide IsAcceptable;
    if tokens != [] {
      RefusalNamesLeftmost(tokens[1..]);
      forall i | IsLeftmostOffender(tokens, i) ensures FirstOffender(tokens) == Some(tokens[i]) {
        if i > 0 {
          assert IsLeftmostOffender(tokens[1..], i - 1);
        }
      }
      if FirstOffender(tokens).None? {
        assert forall i :: 0 < i < |tokens| ==> tokens[i] == tokens[1..][i - 1];
      }
    }
  }

  /** `None` when the scope may be requested, else the offending token. */
  function ValidateScope(scope: string): Option<string> {
    FirstOffender(Split(scope, ' '))
  }

  predicate HasScope(scope: string, needed: string) {
    needed in Split(scope, ' ')
  }

  lemma {:induction false} FirstOffenderOfBoth(a: seq<string>, b: seq<string>)
    ensures FirstOffender(a + b) == if FirstOffender(a).Some? then FirstOffender(a) else FirstOffender(b)
  {
    if a == [] {
      assert a + b == b;
    } else {
      assert (a + b)[1..] == a[1..] + b;
      FirstOffenderOfBoth(a[1..], b);
    }
  }

  /** Joining two scope strings with a space checks the left one first, then the right one. */
  lemma ValidateIsCompositional(a: string, b: string)
    ensures ValidateScope(a + [' '] + b)
         == if ValidateScope(a).Some? then ValidateScope(a) else ValidateScope(b)
    ensures forall needed :: HasScope(a + [' '] + b, needed) <==> HasScope(a, needed) || HasScope(b, needed)
  {
    SplitOfJoined(a, ' ', b);
    FirstOffenderOfBoth(Split(a, ' '), Split(b, ' '));
    hide Split;
  }

  /** A scope that passed the gate grants only well-formed purposes. */
  lemma ValidScopeGrantsGrammar(scope: string, needed: string)
    requires ValidateScope(scope).None? && HasScope(scope, needed) && StartsWith(needed, DPV_PREFIX)
    ensures InGrammar(needed)
  {
    hide Split, IsValidToken, InGrammar;
    CheckDecidesGrammar(needed);
    RefusalNamesLeftmost(Split(scope, ' '));
  }

  // ----- the grammar, letter by letter -----

  predicate IsLetterOrDigit(c: char) {
    'a' <= c <= 'z' || 'A' <= c <= 'Z' || '0' <= c <= '9'
  }

  predicate IsSpelled(token: string, purpose: string, action: string) {
    token == "dpv:" + purpose + "#" + action && purpose != "" && action != ""
    && (forall i :: 0 <= i < |purpose| ==> IsLetterOrDigit(purpose[i]))
    && (forall i :: 0 <= i < |action| ==> IsLetterOrDigit(action[i]) || action[i] in "-_.:")
  }

  /** The grammar is dpv:[A-Za-z0-9]+#[A-Za-z0-9._:-]+ and nothing else. */
  lemma GrammarSpelledOut(token: string)
    ensures InGrammar(token) <==> exists purpose, action :: IsSpelled(token, purpose, action)
  {
    forall purpose, action ensures IsPurposeScope(token, purpose, action) <==> IsSpelled(token, purpose, action) {
      SpelledAlike(token, purpose, action);
    }
    hide IsPurposeScope, IsSpelled;
  }

  lemma SpelledAlike(token: string, purpose: string, action: string)
    ensures IsPurposeScope(token, purpose, action) <==> IsSpelled(token, purpose, action)
  {
    assert forall c :: IsAlphanumeric(c) <==> IsLetterOrDigit(c);
    assert forall c :: IsActionChar(c) <==> IsLetterOrDigit(c) || c in "-_.:";
    hide IsAlphanumeric, IsLetterOrDigit, IsActionChar;
  }
}
