/** Loosely typed settings, as the settings file and the dialogs hand them to the
    core: a Python bool, int, str, None, or some other object (a list or a dict). */
module PyValues {
  import opened Wrappers
  import opened Text

  datatype Value =
    | Null
    | B(b: bool)
    | I(i: int)
    | S(s: string)
      /** Any other object, given by its type name and the text str() gives it. */
    | Other(typeName: string, text: string)

  /** str(v) */
  function PyStr(v: Value): string {
    match v
    case Null => "None"
    case B(b) => if b then "True" else "False"
    case I(i) => IntToString(i)
    case S(s) => s
    case Other(_, text) => text
  }

  /** type(v).__name__ */
  function TypeName(v: Value): string {
    match v
    case Null => "NoneType"
    case B(_) => "bool"
    case I(_) => "int"
    case S(_) => "str"
    case Other(name, _) => name
  }

  /** The words as_bool accepts as true, once stripped and lower-cased. */
  const TrueWords: set<string> := {"1", "true", "yes", "on"}

  /** as_bool(value): never raises. */
  function AsBool(v: Value): bool {
    match v
    case B(b) => b
    case S(s) => Lower(Strip(s)) in TrueWords
    case I(i) => i != 0
    case _ => false
  }

  /** int(v): None where Python raises TypeError (None, other objects) or ValueError. */
  function PyInt(v: Value): Option<int> {
    match v
    case B(b) => Some(if b then 1 else 0)
    case I(i) => Some(i)
    case S(s) => ParseInt(s)
    case _ => None
  }

  /** as_bool on text looks neither at letter case ... */
  lemma {:induction false} AsBoolIgnoresCase(s1: string, s2: string)
    requires Lower(s1) == Lower(s2)
    ensures AsBool(S(s1)) == AsBool(S(s2))
  {
    StripLower(s1);
    StripLower(s2);
  }

  /** ... nor at surrounding whitespace. */
  lemma {:induction false} AsBoolIgnoresPadding(a: string, s: string, b: string)
    requires AllSpace(a) && AllSpace(b)
    ensures AsBool(S(a + s + b)) == AsBool(S(s))
  {
    StripPadding(a, s, b);
  }

  lemma TrueWordTrimmed(w: string)
    requires Lower(w) in TrueWords
    ensures Trimmed(w)
  {
    var v := Lower(w);
    assert v == "1" || v == "true" || v == "yes" || v == "on";
    assert !IsSpace(v[0]) && !IsSpace(v[|v| - 1]);
  }

  /** A true word with whitespace around it is true. */
  lemma {:induction false} AsBoolOfPaddedWord(s: string, i: nat, j: nat)
    requires i <= j <= |s| && AllSpace(s[..i]) && AllSpace(s[j..]) && Lower(s[i..j]) in TrueWords
    ensures AsBool(S(s))
  {
    TrueWordTrimmed(s[i..j]);
    assert s == s[..i] + s[i..j] + s[j..];
    StripExact(s[..i], s[i..j], s[j..]);
  }

  /** A string is true exactly when it is one of the true words, in any letter case,
      with nothing but whitespace around it. */
  lemma {:induction false} AsBoolText(s: string)
    ensures AsBool(S(s)) <==>
      exists i, j :: 0 <= i <= j <= |s| && AllSpace(s[..i]) && AllSpace(s[j..]) && Lower(s[i..j]) in TrueWords
  {
    if AsBool(S(s)) {
      var a, b := StripSplits(s);
      var w := Strip(s);
      var i, j := |a|, |a| + |w|;
      assert s[..i] == a && s[j..] == b && s[i..j] == w;
    }
    forall i, j | 0 <= i <= j <= |s| && AllSpace(s[..i]) && AllSpace(s[j..]) && Lower(s[i..j]) in TrueWords
      ensures AsBool(S(s))
    {
      AsBoolOfPaddedWord(s, i, j);
    }
  }

  /** int(str(n)) == n, so an integer setting written out as text reads back unchanged. */
  lemma PyIntOfText(n: int)
    ensures PyInt(S(PyStr(I(n)))) == Some(n)
  {
    ParseIntRoundTrip(n);
  }

  /** Text without surrounding whitespace is true exactly when its lower-case form is a true word. */
  lemma AsBoolOfTrimmed(s: string)
    requires Trimmed(s)
    ensures AsBool(S(s)) <==> Lower(s) in TrueWords
  {
    StripExact([], s, []);
    assert [] + s + [] == s;
  }

  /** Sample input: a true word in capitals. */
  lemma AsBoolCapitalsExample()
    ensures AsBool(S("ON"))
  {
    assert Lower("ON") == "on";
    assert Trimmed("ON");
    AsBoolOfTrimmed("ON");
  }

  /** Sample input: a true word in mixed case with surrounding whitespace. */
  lemma AsBoolPaddedExample()
    ensures AsBool(S(" " + "Yes" + "\n"))
  {
    assert Lower("Yes") == "yes";
    assert Trimmed("Yes");
    AsBoolOfTrimmed("Yes");
    AsBoolIgnoresPadding(" ", "Yes", "\n");
  }

  /** Sample inputs: a number is true when it is not zero; None is false. */
  lemma AsBoolNonTextExamples()
    ensures AsBool(I(-1)) && !AsBool(I(0)) && !AsBool(Null)
  {
  }

  /** Sample input: a word that is not a true word is false. */
  lemma AsBoolOtherWordExample()
    ensures !AsBool(S("no"))
  {
    assert Lower("no") == "no";
    assert Trimmed("no");
    AsBoolOfTrimmed("no");
  }

  /** Sample input: empty text is false. */
  lemma AsBoolEmptyExample()
    ensures !AsBool(S(""))
  {
    AsBoolOfTrimmed("");
  }
}
