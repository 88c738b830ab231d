/**
 * `default_get_arg_names_from_class_name`: the conversion of an UpperCamelCase
 * class name, with an optional leading underscore, into a snake_case arg name.
 */
module Naming {
  import opened Wrappers

  predicate IsUpper(c: char) { 'A' <= c <= 'Z' }
  predicate IsLower(c: char) { 'a' <= c <= 'z' }
  predicate IsDigit(c: char) { '0' <= c <= '9' }

  /** A character that may follow the capital letter inside one camel-case word. */
  predicate IsWordTail(c: char) { IsLower(c) || IsDigit(c) }

  function ToLower(c: char): char { if IsUpper(c) then (c as int + 32) as char else c }
  function ToUpper(c: char): char { if IsLower(c) then (c as int - 32) as char else c }

  function Lower(w: string): (r: string)
    ensures |r| == |w|
  {
    if w == [] then [] else [ToLower(w[0])] + Lower(w[1..])
  }

  /** One camel-case word: a capital letter followed by lower-case letters and digits. */
  ghost predicate IsWord(w: string) {
    |w| > 0 && IsUpper(w[0]) && forall i :: 1 <= i < |w| ==> IsWordTail(w[i])
  }

  /** A well-formed class name: a capital letter followed by ASCII letters and digits only. */
  ghost predicate IsCamelCase(s: string) {
    |s| > 0 && IsUpper(s[0]) && forall i :: 0 <= i < |s| ==> IsUpper(s[i]) || IsWordTail(s[i])
  }

  /**
   * A snake_case arg name: starts with a lower-case letter, uses lower-case
   * letters, digits and underscores, and every underscore is followed by a
   * lower-case letter (so none is doubled or trailing).
   */
  ghost predicate IsSnakeCase(s: string) {
    |s| > 0 && IsLower(s[0]) && forall i :: 0 <= i < |s| ==> SnakeCharAt(s, i)
  }

  /** Position `i` of `s` holds a word-tail character, or an underscore followed by a lower-case letter. */
  ghost predicate SnakeCharAt(s: string, i: int) {
    0 <= i < |s| && (IsWordTail(s[i]) || (s[i] == '_' && i + 1 < |s| && IsLower(s[i + 1])))
  }

  function StripLeadingUnderscore(name: string): (r: string)
    ensures |name| > 0 && name[0] == '_' ==> r == name[1..]
    ensures (|name| == 0 || name[0] != '_') ==> r == name
  {
    if |name| > 0 && name[0] == '_' then name[1..] else name
  }

  /** The length of the longest prefix of `s` made of word-tail characters. */
  function TailRun(s: string): (n: nat)
    ensures n <= |s|
  {
    if s == [] || !IsWordTail(s[0]) then 0 else 1 + TailRun(s[1..])
  }

  /**
   * Splits `s` into maximal camel-case words; `None` when some character
   * does not belong to a word.
   */
  function SplitWords(s: string): Option<seq<string>>
    decreases |s|
  {
    if s == [] then Some([])
    else if !IsUpper(s[0]) then None
    else
      var n := 1 + TailRun(s[1..]);
      match SplitWords(s[n..])
      case None => None
      case Some(rest) => Some([s[..n]] + rest)
  }

  function Concat(ws: seq<string>): string
  {
    if ws == [] then [] else ws[0] + Concat(ws[1..])
  }

  /** The words, lower-cased and joined with underscores. */
  function JoinSnake(ws: seq<string>): string
  {
    if ws == [] then []
    else if |ws| == 1 then Lower(ws[0])
    else Lower(ws[0]) + "_" + JoinSnake(ws[1..])
  }

  /**
   * `default_get_arg_names_from_class_name(class_name)`: the one snake_case
   * name, or no name at all when the class name is not camel case.
   */
  function DefaultArgNames(className: string): (r: seq<string>)
    ensures |r| <= 1
  {
    match SplitWords(StripLeadingUnderscore(className))
    case None => []
    case Some(ws) => if ws == [] then [] else [JoinSnake(ws)]
  }

  /** The inverse direction: snake_case back to UpperCamelCase. */
  function Camelize(s: string): string
  {
    CamelizeFrom(s, true)
  }

  /** Drops underscores and capitalises the first character and each one after an underscore. */
  function CamelizeFrom(s: string, atWordStart: bool): string
  {
    if s == [] then []
    else if s[0] == '_' then CamelizeFrom(s[1..], true)
    else [if atWordStart then ToUpper(s[0]) else s[0]] + CamelizeFrom(s[1..], false)
  }

  // ---------------------------------------------------------------------------
  // Word splitting

  /** The words put back together give the input, and each is a camel-case word. */
  lemma SplitWordsSound(s: string, ws: seq<string>)
    requires SplitWords(s) == Some(ws)
    ensures Concat(ws) == s
    ensures forall i :: 0 <= i < |ws| ==> IsWord(ws[i])
  {
    SplitWordsConcat(s, ws);
    SplitWordsAreWords(s, ws);
  }

  lemma {:induction false} SplitWordsConcat(s: string, ws: seq<string>)
    requires SplitWords(s) == Some(ws)
    ensures Concat(ws) == s
    decreases |s|
  {
    if s != [] {
      var n := 1 + TailRun(s[1..]);
      SplitWordsStep(s);
      var rest := SplitWords(s[n..]).value;
      assert ws == [s[..n]] + rest;
      SplitWordsConcat(s[n..], rest);
      assert ws[1..] == rest;
      assert s == s[..n] + s[n..];
    }
  }

  lemma {:induction false} SplitWordsAreWords(s: string, ws: seq<string>)
    requires SplitWords(s) == Some(ws)
    ensures forall i :: 0 <= i < |ws| ==> IsWord(ws[i])
    decreases |s|
  {
    if s != [] {
      var n := 1 + TailRun(s[1..]);
      SplitWordsStep(s);
      var rest := SplitWords(s[n..]).value;
      assert ws == [s[..n]] + rest;
      SplitWordsAreWords(s[n..], rest);
      LeadingWord(s);
      forall i | 0 <= i < |ws| ensures IsWord(ws[i]) {
        if i > 0 { assert ws[i] == rest[i - 1]; }
      }
    }
  }

  /** One step of `SplitWords` on a name that starts with a capital letter. */
  lemma SplitWordsStep(s: string)
    requires s != [] && IsUpper(s[0])
    ensures SplitWords(s).Some? <==> SplitWords(s[1 + TailRun(s[1..])..]).Some?
    ensures SplitWords(s).Some? ==>
      SplitWords(s).value == [s[..1 + TailRun(s[1..])]] + SplitWords(s[1 + TailRun(s[1..])..]).value
  {
  }

  /** The first word `SplitWords` takes off is a camel-case word. */
  lemma LeadingWord(s: string)
    requires s != [] && IsUpper(s[0])
    ensures IsWord(s[..1 + TailRun(s[1..])])
  {
    var n := 1 + TailRun(s[1..]);
    var w := s[..n];
    TailRunSpec(s[1..]);
    forall i | 1 <= i < n ensures IsWordTail(w[i]) {
      assert w[i] == s[1..][i - 1];
    }
  }

  /** Splitting succeeds exactly on the empty string and on camel-case names. */
  lemma {:induction false} SplitWordsDefined(s: string)
    ensures SplitWords(s).Some? <==> s == [] || IsCamelCase(s)
    decreases |s|
  {
    if s != [] && IsUpper(s[0]) {
      var n := 1 + TailRun(s[1..]);
      TailRunSpec(s[1..]);
      SplitWordsDefined(s[n..]);
      if SplitWords(s[n..]).Some? {
        if s[n..] != [] {
          forall i | 0 <= i < |s| ensures IsUpper(s[i]) || IsWordTail(s[i]) {
            if 1 <= i < n {
              assert s[i] == s[1..][i - 1];
            } else if i >= n {
              assert s[i] == s[n..][i - n];
            }
          }
        } else {
          forall i | 0 <= i < |s| ensures IsUpper(s[i]) || IsWordTail(s[i]) {
            if 1 <= i {
              assert s[i] == s[1..][i - 1];
            }
          }
        }
      } else {
        assert !IsCamelCase(s[n..]);
        assert s[n..] != [];
        if !IsUpper(s[n..][0]) {
          assert !IsWordTail(s[1..][n - 1]);
          assert !IsCamelCase(s) by { assert s[n] == s[n..][0]; }
        } else {
          var j :| 0 <= j < |s[n..]| && !(IsUpper(s[n..][j]) || IsWordTail(s[n..][j]));
          assert !IsCamelCase(s) by { assert s[n + j] == s[n..][j]; }
        }
      }
    }
  }

  // ---------------------------------------------------------------------------
  // Lower-casing a word and joining words

  lemma {:induction false} LowerOfTail(u: string)
    requires forall i :: 0 <= i < |u| ==> IsWordTail(u[i])
    ensures Lower(u) == u
  {
    if u != [] {
      LowerOfTail(u[1..]);
    }
  }

  lemma LowerOfWord(w: string)
    requires IsWord(w)
    ensures Lower(w) == [ToLower(w[0])] + w[1..]
    ensures IsLower(ToLower(w[0])) && ToUpper(ToLower(w[0])) == w[0]
  {
    LowerOfTail(w[1..]);
  }

  lemma {:induction false} CamelizeKeepsTail(u: string, x: string)
    requires forall i :: 0 <= i < |u| ==> IsWordTail(u[i])
    ensures CamelizeFrom(u + x, false) == u + CamelizeFrom(x, false)
  {
    if u != [] {
      var ux := u + x;
      assert ux[0] == u[0] && ux[0] != '_';
      assert ux[1..] == u[1..] + x;
      calc {
        CamelizeFrom(ux, false);
        [u[0]] + CamelizeFrom(u[1..] + x, false);
        { CamelizeKeepsTail(u[1..], x); }
        [u[0]] + (u[1..] + CamelizeFrom(x, false));
        { assert u == [u[0]] + u[1..]; }
        u + CamelizeFrom(x, false);
      }
    } else {
      assert u + x == x;
    }
  }

  /** Camelizing a lower-cased word followed by the rest of a join gives the word back. */
  lemma CamelizeLoweredWord(w: string, tail: string)
    requires IsWord(w)
    ensures Camelize(Lower(w) + tail) == w + CamelizeFrom(tail, false)
  {
    LowerOfWord(w);
    var joined := Lower(w) + tail;
    assert joined[0] == ToLower(w[0]) && joined[0] != '_';
    assert joined[1..] == w[1..] + tail;
    assert Camelize(joined) == [w[0]] + CamelizeFrom(w[1..] + tail, false);
    CamelizeKeepsTail(w[1..], tail);
    assert w == [w[0]] + w[1..];
  }

  /** Camelizing the snake_case join of camel-case words gives back the words. */
  lemma {:induction false} CamelizeJoinSnake(ws: seq<string>)
    requires ws != []
    requires forall i :: 0 <= i < |ws| ==> IsWord(ws[i])
    ensures Camelize(JoinSnake(ws)) == Concat(ws)
  {
    var w := ws[0];
    var tail := if |ws| == 1 then [] else "_" + JoinSnake(ws[1..]);
    assert JoinSnake(ws) == Lower(w) + tail;
    CamelizeLoweredWord(w, tail);
    if |ws| == 1 {
      assert Concat(ws) == w + Concat([]);
    } else {
      CamelizeJoinSnake(ws[1..]);
      assert tail[0] == '_' && tail[1..] == JoinSnake(ws[1..]);
      assert CamelizeFrom(tail, false) == Camelize(JoinSnake(ws[1..]));
      assert Concat(ws) == w + Concat(ws[1..]);
    }
  }

  /** A lower-cased camel-case word is made of word-tail characters and starts with a lower-case letter. */
  lemma LowerOfWordIsTail(w: string)
    requires IsWord(w)
    ensures |Lower(w)| > 0 && IsLower(Lower(w)[0])
    ensures forall i :: 0 <= i < |Lower(w)| ==> IsWordTail(Lower(w)[i])
  {
    LowerOfWord(w);
    var l := Lower(w);
    forall i | 0 <= i < |l| ensures IsWordTail(l[i]) {
      if i > 0 { assert l[i] == w[i]; }
    }
  }

  /** The snake_case join of camel-case words is snake_case. */
  lemma {:induction false} JoinSnakeIsSnakeCase(ws: seq<string>)
    requires ws != []
    requires forall i :: 0 <= i < |ws| ==> IsWord(ws[i])
    ensures IsSnakeCase(JoinSnake(ws))
  {
    var l := Lower(ws[0]);
    LowerOfWordIsTail(ws[0]);
    if |ws| == 1 {
      assert JoinSnake(ws) == l;
    } else {
      var r := JoinSnake(ws[1..]);
      JoinSnakeIsSnakeCase(ws[1..]);
      var s := l + "_" + r;
      assert JoinSnake(ws) == s;
      forall i | 0 <= i < |s| ensures SnakeCharAt(s, i) {
        if i < |l| {
          assert s[i] == l[i];
        } else if i == |l| {
          assert s[i] == '_' && s[i + 1] == r[0] && IsLower(r[0]);
        } else {
          var k := i - |l| - 1;
          assert s[i] == r[k];
          assert SnakeCharAt(r, k);
          if k + 1 < |r| { assert s[i + 1] == r[k + 1]; }
        }
      }
    }
  }

  // ---------------------------------------------------------------------------
  // Properties of the default name inference

  /** The inferred name is snake_case, and camelizing it gives back the class name without its underscore. */
  lemma ArgNameRoundTrip(className: string)
    requires DefaultArgNames(className) != []
    ensures IsSnakeCase(DefaultArgNames(className)[0])
    ensures Camelize(DefaultArgNames(className)[0]) == StripLeadingUnderscore(className)
  {
    var s := StripLeadingUnderscore(className);
    var ws := SplitWords(s).value;
    SplitWordsSound(s, ws);
    CamelizeJoinSnake(ws);
    JoinSnakeIsSnakeCase(ws);
  }

  /** A name is inferred exactly when the class name, without its leading underscore, is camel case. */
  lemma ArgNameInferredIff(className: string)
    ensures DefaultArgNames(className) != [] <==> IsCamelCase(StripLeadingUnderscore(className))
  {
    SplitWordsDefined(StripLeadingUnderscore(className));
  }

  /**
   * Two class names infer the same arg name exactly when they agree after the
   * leading underscore is stripped; this is why `SomeClass` and `_SomeClass`
   * collide.
   */
  lemma SameArgNameIff(a: string, b: string)
    requires DefaultArgNames(a) != []
    ensures DefaultArgNames(a) == DefaultArgNames(b) <==> StripLeadingUnderscore(a) == StripLeadingUnderscore(b)
  {
    if DefaultArgNames(a) == DefaultArgNames(b) {
      ArgNameRoundTrip(a);
      ArgNameRoundTrip(b);
    }
  }

  /** Splitting a camel-case word followed by a name that starts a new word. */
  lemma SplitWordsCons(w: string, s: string, rest: seq<string>)
    requires IsWord(w)
    requires s == [] || IsUpper(s[0])
    requires SplitWords(s) == Some(rest)
    ensures SplitWords(w + s) == Some([w] + rest)
  {
    var ws := w + s;
    assert ws[1..] == w[1..] + s;
    TailRunIs(ws[1..], |w| - 1);
    assert ws[..|w|] == w && ws[|w|..] == s;
  }

  /** `TailRun` measures a run of word-tail characters, and the run is maximal. */
  lemma {:induction false} TailRunSpec(s: string)
    ensures forall i :: 0 <= i < TailRun(s) ==> IsWordTail(s[i])
    ensures TailRun(s) < |s| ==> !IsWordTail(s[TailRun(s)])
  {
    if s != [] && IsWordTail(s[0]) {
      var t := s[1..];
      TailRunSpec(t);
      forall i | 0 <= i < TailRun(s) ensures IsWordTail(s[i]) {
        if i > 0 { assert s[i] == t[i - 1]; }
      }
      if TailRun(s) < |s| {
        assert s[TailRun(s)] == t[TailRun(t)];
      }
    }
  }

  lemma {:induction false} TailRunIs(s: string, n: nat)
    requires n <= |s|
    requires forall i :: 0 <= i < n ==> IsWordTail(s[i])
    requires n < |s| ==> !IsWordTail(s[n])
    ensures TailRun(s) == n
  {
    if n > 0 {
      TailRunIs(s[1..], n - 1);
    }
  }

  /** Splitting undoes concatenation: the words of a camel-case name are unique. */
  lemma {:induction false} SplitConcatWords(ws: seq<string>)
    requires forall i :: 0 <= i < |ws| ==> IsWord(ws[i])
    ensures SplitWords(Concat(ws)) == Some(ws)
  {
    if ws != [] {
      var rest := ws[1..];
      SplitConcatWords(rest);
      if rest != [] {
        assert Concat(rest)[0] == rest[0][0];
      }
      SplitWordsCons(ws[0], Concat(rest), rest);
      assert [ws[0]] + rest == ws;
    }
  }

  /**
   * The name inferred for a class named by camel-case words, with or without
   * a leading underscore, is those words lower-cased and joined by underscores.
   */
  lemma DefaultArgNamesOfWords(ws: seq<string>)
    requires ws != []
    requires forall i :: 0 <= i < |ws| ==> IsWord(ws[i])
    ensures DefaultArgNames(Concat(ws)) == [JoinSnake(ws)]
    ensures DefaultArgNames("_" + Concat(ws)) == [JoinSnake(ws)]
  {
    var c := Concat(ws);
    SplitConcatWords(ws);
    assert c != [] && c[0] == ws[0][0] && IsUpper(c[0]);
    assert StripLeadingUnderscore(c) == c;
    DefaultArgNamesOfSplit(c, ws);
    var u := "_" + c;
    assert u[1..] == c;
    assert StripLeadingUnderscore(u) == c;
    DefaultArgNamesOfSplit(u, ws);
  }

  lemma DefaultArgNamesOfSplit(className: string, ws: seq<string>)
    requires ws != []
    requires SplitWords(StripLeadingUnderscore(className)) == Some(ws)
    ensures DefaultArgNames(className) == [JoinSnake(ws)]
  {
  }

  /** `Lower` works character by character. */
  lemma {:induction false} LowerAt(w: string)
    ensures forall i :: 0 <= i < |w| ==> Lower(w)[i] == ToLower(w[i])
  {
    if w != [] {
      LowerAt(w[1..]);
    }
  }

  lemma LowerIs(w: string, l: string)
    requires |w| == |l|
    requires forall i :: 0 <= i < |w| ==> ToLower(w[i]) == l[i]
    ensures Lower(w) == l
  {
    LowerAt(w);
  }

  /** `Foo` gives `foo` (first case of `DefaultGetArgNamesFromClassNameTest`). */
  lemma SingleWordLowercased()
    ensures DefaultArgNames("Foo") == ["foo"]
  {
    assert IsWord("Foo");
    LowerIs("Foo", "foo");
    DefaultArgNamesOfWords(["Foo"]);
    assert Concat(["Foo"]) == "Foo";
  }

  /** `_Foo` gives `foo`: the leading underscore is stripped. */
  lemma LeadingUnderscoreStripped()
    ensures DefaultArgNames("_Foo") == ["foo"]
  {
    assert IsWord("Foo");
    LowerIs("Foo", "foo");
    DefaultArgNamesOfWords(["Foo"]);
    assert "_" + Concat(["Foo"]) == "_Foo";
  }

  /** The name inferred for a class named by two camel-case words. */
  lemma TwoWordArgName(a: string, b: string)
    requires IsWord(a) && IsWord(b)
    ensures DefaultArgNames(a + b) == [Lower(a) + "_" + Lower(b)]
  {
    var ws := [a, b];
    DefaultArgNamesOfWords(ws);
    assert ws[1..] == [b];
    assert Concat(ws) == a + b by { assert Concat(ws[1..]) == b + Concat([]); }
  }

  /** The name inferred for a class named by three camel-case words. */
  lemma ThreeWordArgName(a: string, b: string, c: string)
    requires IsWord(a) && IsWord(b) && IsWord(c)
    ensures DefaultArgNames(a + b + c) == [Lower(a) + "_" + Lower(b) + "_" + Lower(c)]
  {
    var ws := [a, b, c];
    assert forall i :: 0 <= i < |ws| ==> IsWord(ws[i]);
    DefaultArgNamesOfWords(ws);
    ThreeWords(a, b, c);
  }

  lemma ThreeWords(a: string, b: string, c: string)
    ensures Concat([a, b, c]) == a + b + c
    ensures JoinSnake([a, b, c]) == Lower(a) + "_" + Lower(b) + "_" + Lower(c)
  {
    ConcatThree(a, b, c);
    JoinSnakeThree(a, b, c);
  }

  lemma ConcatThree(a: string, b: string, c: string)
    ensures Concat([a, b, c]) == a + b + c
  {
    assert [a, b, c][1..] == [b, c] && [b, c][1..] == [c];
    assert Concat([c]) == c;
    assert Concat([b, c]) == b + c;
  }

  lemma JoinSnakeThree(a: string, b: string, c: string)
    ensures JoinSnake([a, b, c]) == Lower(a) + "_" + Lower(b) + "_" + Lower(c)
  {
    assert [a, b, c][1..] == [b, c] && [b, c][1..] == [c];
    assert JoinSnake([b, c]) == Lower(b) + "_" + Lower(c);
  }

  /** `FooBarBaz` gives `foo_bar_baz`. */
  lemma MultipleWordsLowercasedWithUnderscores()
    ensures DefaultArgNames("FooBarBaz") == ["foo_bar_baz"]
  {
    assert IsWord("Foo") && IsWord("Bar") && IsWord("Baz");
    assert "Foo" + "Bar" + "Baz" == "FooBarBaz";
    FooBarBazLowered();
    ThreeWordArgName("Foo", "Bar", "Baz");
  }

  lemma FooBarBazLowered()
    ensures Lower("Foo") + "_" + Lower("Bar") + "_" + Lower("Baz") == "foo_bar_baz"
  {
    LowerIs("Foo", "foo");
    LowerIs("Bar", "bar");
    LowerIs("Baz", "baz");
    assert "foo" + "_" + "bar" + "_" + "baz" == "foo_bar_baz";
  }

  /** `notAllCamelCase` gives no name. */
  lemma MalformedClassNameGivesNoName()
    ensures DefaultArgNames("notAllCamelCase") == []
  {
  }
}
