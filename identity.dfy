/** The identity normaliser of the two login routes: every whitespace character of the
    submitted name becomes one underscore, and the result is lower-cased.
    `replace(/\s/g, '_')` is `ReplaceWhitespace`, `toLowerCase()` is `ToLower`. */
module Identity {

  /** JavaScript's `\s`: the WhiteSpace and LineTerminator code points of ECMAScript
      (tab, vertical tab, form feed, the byte order mark, every space separator of Unicode,
      line feed, carriage return, line and paragraph separator). */
  predicate IsWhitespace(c: char)
  {
    c == '\t' || c == '\n' || c == '\U{000B}' || c == '\U{000C}' || c == '\r'
    || c == ' ' || c == '\U{00A0}' || c == '\U{1680}' || ('\U{2000}' <= c <= '\U{200A}')
    || c == '\U{2028}' || c == '\U{2029}' || c == '\U{202F}' || c == '\U{205F}'
    || c == '\U{3000}' || c == '\U{FEFF}'
  }

  predicate IsUpper(c: char)
  {
    'A' <= c <= 'Z'
  }

  /** Case mapping of one character, over ASCII only. */
  function LowerChar(c: char): (d: char)
    ensures !IsUpper(d)
    ensures IsWhitespace(d) <==> IsWhitespace(c)
    ensures !IsUpper(c) ==> d == c
    ensures IsUpper(c) ==> 'a' <= d <= 'z' && d as int - c as int == 'a' as int - 'A' as int
  {
    if IsUpper(c) then (c as int - 'A' as int + 'a' as int) as char else c
  }

  /** `s.replace(/\s/g, '_')`: one underscore for each whitespace character, runs included. */
  function ReplaceWhitespace(s: string): (r: string)
    ensures |r| == |s|
    ensures forall i :: 0 <= i < |s| && IsWhitespace(s[i]) ==> r[i] == '_'
    ensures forall i :: 0 <= i < |s| && !IsWhitespace(s[i]) ==> r[i] == s[i]
  {
    if s == [] then []
    else [if IsWhitespace(s[0]) then '_' else s[0]] + ReplaceWhitespace(s[1..])
  }

  /** `s.toLowerCase()`, restricted to ASCII case mapping. */
  function ToLower(s: string): (r: string)
    ensures |r| == |s|
    ensures forall i :: 0 <= i < |s| ==> r[i] == LowerChar(s[i])
  {
    if s == [] then [] else [LowerChar(s[0])] + ToLower(s[1..])
  }

  /** The admin route's identity: `adminId.replace(/\s/g, '_').toLowerCase()`. */
  function Normalize(s: string): string
  {
    ToLower(ReplaceWhitespace(s))
  }

  /** The customer route's identity: both names with their whitespace replaced, concatenated,
      then lower-cased as one string. */
  function CustomerUsername(firstName: string, lastName: string): string
  {
    ToLower(ReplaceWhitespace(firstName) + ReplaceWhitespace(lastName))
  }

  /** A canonical identity: no whitespace character and no upper-case letter. */
  predicate IsNormalized(s: string)
  {
    forall i :: 0 <= i < |s| ==> !IsWhitespace(s[i]) && !IsUpper(s[i])
  }

  /** The result of normalisation has the length of its input and is canonical. */
  lemma NormalizeIsNormalized(s: string)
    ensures |Normalize(s)| == |s|
    ensures IsNormalized(Normalize(s))
  {
  }

  /** Normalisation leaves a string unchanged exactly when that string is canonical. */
  lemma NormalizeFixesExactlyNormalized(s: string)
    ensures Normalize(s) == s <==> IsNormalized(s)
  {
  }

  /** Normalising an identity a second time changes nothing. */
  lemma NormalizeIdempotent(s: string)
    ensures Normalize(Normalize(s)) == Normalize(s)
  {
  }

  /** Only the empty string normalises to the empty identity: a whitespace-only name gives
      underscores, not an empty string. */
  lemma NormalizeEmptyOnlyForEmpty(s: string)
    ensures Normalize(s) == [] <==> s == []
    ensures (forall i :: 0 <= i < |s| ==> IsWhitespace(s[i])) ==>
              forall i :: 0 <= i < |s| ==> Normalize(s)[i] == '_'
  {
  }

  /** Normalisation, character by character: t is the identity of s when it has the length
      of s and each position holds the lower-case of the same position of s, or an
      underscore where s has whitespace. */
  lemma NormalizeMatches(s: string, t: string)
    requires |t| == |s|
    requires forall i :: 0 <= i < |s| ==> t[i] == if IsWhitespace(s[i]) then '_' else LowerChar(s[i])
    ensures Normalize(s) == t
  {
  }

  /** Whitespace runs are not collapsed: each whitespace character gives its own underscore. */
  lemma RunsAreNotCollapsed()
    ensures Normalize("a  b") == "a__b"
    ensures Normalize(" ") == "_"
  {
    var s, t := "a  b", "a__b";
    assert t[0] == LowerChar(s[0]);
    assert IsWhitespace(s[1]) && t[1] == '_';
    assert IsWhitespace(s[2]) && t[2] == '_';
    assert t[3] == LowerChar(s[3]);
    NormalizeMatches(s, t);
    NormalizeMatches(" ", "_");
  }

  /** Two admin names as examples: a space becomes an underscore, capitals become small. */
  lemma SupportTeamIsNormalized()
    ensures Normalize("Support Team") == "support_team"
  {
    var s, t := "Support Team", "support_team";
    assert t[0] == LowerChar(s[0]);
    assert t[1] == LowerChar(s[1]);
    assert t[2] == LowerChar(s[2]);
    assert t[3] == LowerChar(s[3]);
    assert t[4] == LowerChar(s[4]);
    assert t[5] == LowerChar(s[5]);
    assert t[6] == LowerChar(s[6]);
    assert IsWhitespace(s[7]) && t[7] == '_';
    assert t[8] == LowerChar(s[8]);
    assert t[9] == LowerChar(s[9]);
    assert t[10] == LowerChar(s[10]);
    assert t[11] == LowerChar(s[11]);
    NormalizeMatches(s, t);
  }

  lemma JaneDoeIsNormalized()
    ensures Normalize("Jane Doe") == "jane_doe"
  {
    var s, t := "Jane Doe", "jane_doe";
    assert t[0] == LowerChar(s[0]);
    assert t[1] == LowerChar(s[1]);
    assert t[2] == LowerChar(s[2]);
    assert t[3] == LowerChar(s[3]);
    assert IsWhitespace(s[4]) && t[4] == '_';
    assert t[5] == LowerChar(s[5]);
    assert t[6] == LowerChar(s[6]);
    assert t[7] == LowerChar(s[7]);
    NormalizeMatches(s, t);
  }

  lemma ToLowerAppend(a: string, b: string)
    ensures ToLower(a + b) == ToLower(a) + ToLower(b)
  {
  }

  /** The customer identity is the concatenation of the two names normalised separately, so
      lower-casing after concatenating is the same as lower-casing each part. */
  lemma CustomerUsernameSplits(firstName: string, lastName: string)
    ensures CustomerUsername(firstName, lastName) == Normalize(firstName) + Normalize(lastName)
  {
  }

  /** The customer identity is canonical and one character long per input character. */
  lemma CustomerUsernameIsNormalized(firstName: string, lastName: string)
    ensures |CustomerUsername(firstName, lastName)| == |firstName| + |lastName|
    ensures IsNormalized(CustomerUsername(firstName, lastName))
  {
  }

  /** Different name pairs can give the same customer identity, and therefore the same channel:
      case, and where the first name ends, are lost. */
  lemma CustomerUsernameNotInjective(first1: string, last1: string, first2: string, last2: string)
    // The names are parameters fixed by the precondition so that the verifier does not unroll literal strings.
    requires first1 == "Ann" && last1 == "Lee" && first2 == "an" && last2 == "nLee"
    ensures CustomerUsername(first1, last1) == CustomerUsername(first2, last2) == "annlee"
  {
    AnnLeeUsername(first1, last1);
    assert Normalize(first2) == "an" by {
      NormalizeMatches(first2, "an");
    }
    assert Normalize(last2) == "nlee" by {
      assert "nlee"[1] == LowerChar(last2[1]);
      NormalizeMatches(last2, "nlee");
    }
    CustomerUsernameSplits(first2, last2);
    assert "an" + "nlee" == "annlee";
  }

  /** A customer name as an example: both names are lower-cased and joined without a separator. */
  lemma AnnLeeUsername(firstName: string, lastName: string)
    // The names are parameters fixed by the precondition so that the verifier does not unroll literal strings.
    requires firstName == "Ann" && lastName == "Lee"
    ensures CustomerUsername(firstName, lastName) == "annlee"
  {
    assert Normalize(firstName) == "ann" by {
      assert "ann"[0] == LowerChar(firstName[0]);
      NormalizeMatches(firstName, "ann");
    }
    assert Normalize(lastName) == "lee" by {
      assert "lee"[0] == LowerChar(lastName[0]);
      NormalizeMatches(lastName, "lee");
    }
    CustomerUsernameSplits(firstName, lastName);
    assert "ann" + "lee" == "annlee";
  }
}
