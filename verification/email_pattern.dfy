/**
 The email test shared by ola-frontend/src/pages/Register.tsx and Login.tsx: the unanchored
 regular expression `\S+@\S+\.\S+`. `EmailSpec` states its language directly; `MatchesEmail`
 decides it with a five-state automaton run over the string, and its contract, proved through
 `RunMeaning`, says that the two agree on every string.
 */
module EmailPattern {

  import opened JsRegex

  /** `\S`. */
  predicate NonWs(c: char)
  {
    !IsWhitespace(c)
  }

  /** The regex matches s with its '@' at p and its '.' at q: since the `\S+` runs may be as
      short as one character, this needs a non-white character before p, a non-empty white-free
      run between p and q, and a non-white character after q. */
  ghost predicate EmailMatchAt(s: string, p: int, q: int)
  {
    && 1 <= p && p + 2 <= q && q + 2 <= |s|
    && s[p] == '@' && s[q] == '.'
    && NonWs(s[p - 1]) && NonWs(s[q + 1])
    && (forall k :: p < k < q ==> NonWs(s[k]))
  }

  /** `/\S+@\S+\.\S+/.test(s)`: some substring of s matches. */
  ghost predicate EmailSpec(s: string)
  {
    exists p, q :: EmailMatchAt(s, p, q)
  }

  // The automaton. After reading a prefix t of the input:
  //   a  — t ends inside a first `\S+` run;
  //   b  — t ends with that run followed by '@';
  //   c  — t ends inside the second `\S+` run;
  //   d  — t ends with the second run followed by '.';
  //   acc — some substring of t already matched.
  datatype Nfa = Nfa(a: bool, b: bool, c: bool, d: bool, acc: bool)

  const START := Nfa(false, false, false, false, false)

  function Step(m: Nfa, ch: char): Nfa
  {
    Nfa(
      NonWs(ch),
      m.a && ch == '@',
      (m.b || m.c) && NonWs(ch),
      m.c && ch == '.',
      m.acc || (m.d && NonWs(ch)))
  }

  function Run(s: string): Nfa
    decreases |s|
  {
    if s == [] then START else Step(Run(s[..|s| - 1]), s[|s| - 1])
  }

  // What each automaton flag means, stated on the prefix read so far.

  ghost predicate InFirstRun(t: string)
  {
    |t| >= 1 && NonWs(t[|t| - 1])
  }

  ghost predicate AfterAt(t: string)
  {
    |t| >= 2 && t[|t| - 1] == '@' && NonWs(t[|t| - 2])
  }

  ghost predicate InSecondRunFrom(t: string, p: int)
  {
    && 1 <= p && p + 2 <= |t| && t[p] == '@' && NonWs(t[p - 1])
    && (forall k :: p < k < |t| ==> NonWs(t[k]))
  }

  ghost predicate InSecondRun(t: string)
  {
    exists p :: InSecondRunFrom(t, p)
  }

  ghost predicate AfterDot(t: string)
  {
    |t| >= 1 && t[|t| - 1] == '.' && InSecondRun(t[..|t| - 1])
  }

  /** Each flag of the automaton after reading s holds exactly when its meaning holds of s. */
  lemma {:induction false} RunMeaning(s: string)
    ensures Run(s) == Nfa(InFirstRun(s), AfterAt(s), InSecondRun(s), AfterDot(s), EmailSpec(s))
    decreases |s|
  {
    if s == [] {
      assert !InSecondRun(s);
      assert !EmailSpec(s);
    } else {
      var n := |s|;
      var t := s[..n - 1];
      var ch := s[n - 1];
      RunMeaning(t);
      assert forall k :: 0 <= k < n - 1 ==> t[k] == s[k];
      SecondRunStep(s);
      MatchStep(s);
    }
  }

  /** The c flag: the second run continues from a '@' just read, or from a run already open. */
  lemma SecondRunStep(s: string)
    requires |s| >= 1
    ensures var t := s[..|s| - 1];
      InSecondRun(s) <==> (AfterAt(t) || InSecondRun(t)) && NonWs(s[|s| - 1])
  {
    var n := |s|;
    var t := s[..n - 1];
    if InSecondRun(s) {
      var p :| InSecondRunFrom(s, p);
      if p == n - 2 {
        assert AfterAt(t);
      } else {
        assert InSecondRunFrom(t, p);
      }
    }
    if AfterAt(t) && NonWs(s[n - 1]) {
      assert InSecondRunFrom(s, n - 2);
    }
    if InSecondRun(t) && NonWs(s[n - 1]) {
      var p :| InSecondRunFrom(t, p);
      assert InSecondRunFrom(s, p);
    }
  }

  /** The acc flag: a match is one already found, or one completed by the character just read
      after a '.'. */
  lemma MatchStep(s: string)
    requires |s| >= 1
    ensures var t := s[..|s| - 1];
      EmailSpec(s) <==> EmailSpec(t) || (AfterDot(t) && NonWs(s[|s| - 1]))
  {
    var n := |s|;
    var t := s[..n - 1];
    if EmailSpec(s) {
      var p, q :| EmailMatchAt(s, p, q);
      if q + 2 <= n - 1 {
        assert EmailMatchAt(t, p, q);
      } else {
        assert InSecondRunFrom(t[..|t| - 1], p);
      }
    }
    if EmailSpec(t) {
      var p, q :| EmailMatchAt(t, p, q);
      assert EmailMatchAt(s, p, q);
    }
    if AfterDot(t) && NonWs(s[n - 1]) {
      var p :| InSecondRunFrom(t[..|t| - 1], p);
      assert EmailMatchAt(s, p, n - 2);
    }
  }

  /** The email test: decided by the automaton, equal to the regex language. */
  function MatchesEmail(s: string): (r: bool)
    ensures r <==> EmailSpec(s)
  {
    RunMeaning(s);
    Run(s).acc
  }

  /** "a@b.c" is the shortest kind of address that passes; "", "a@b" and "a @b.c" do not. */
  lemma EmailExamples()
    ensures !MatchesEmail("")
    ensures MatchesEmail("a@b.c")
    ensures !MatchesEmail("a@b")
    ensures !MatchesEmail("a @b.c")
  {
    assert EmailMatchAt("a@b.c", 1, 3);
    assert !EmailSpec("a@b");
  }
}
