/** Accent- and case-insensitive search: the text normaliser and the match
    predicate (searchUtils.ts). Normalisation is three stages, as in the
    source: lower-case, canonical decomposition, removal of combining marks.
    Case mapping and decomposition are given by a finite table: ASCII and the
    Latin-1 letters. */
module Search {
  import opened Seqs
  import opened Text

  const Grave: char := '\U{0300}'
  const Acute: char := '\U{0301}'
  const Circumflex: char := '\U{0302}'
  const Tilde: char := '\U{0303}'
  const Diaeresis: char := '\U{0308}'
  const Ring: char := '\U{030A}'
  const Cedilla: char := '\U{0327}'

  /** The block of combining diacritical marks the normaliser removes. */
  predicate IsCombiningMark(c: char) {
    '\U{0300}' <= c <= '\U{036F}'
  }

  /** The upper-case letters of the table: A..Z and À..Þ except the multiplication sign. */
  predicate IsUpper(c: char) {
    'A' <= c <= 'Z' || ('À' <= c <= 'Þ' && c != '×')
  }

  /** The letters of the table that decompose into a base letter and one mark. */
  predicate IsDecomposable(c: char) {
    ('À' <= c <= 'Ý' && c != 'Æ' && c != 'Ð' && c != '×' && c != 'Ø') ||
    ('à' <= c <= 'ÿ' && c != 'æ' && c != 'ð' && c != '÷' && c != 'ø' && c != 'þ')
  }

  /** A character the normaliser leaves as it is and never produces otherwise. */
  predicate IsNormalChar(c: char) {
    !IsUpper(c) && !IsDecomposable(c) && !IsCombiningMark(c)
  }

  /** Text that contains only normal characters. */
  predicate IsNormal(t: string) {
    forall i | 0 <= i < |t| :: IsNormalChar(t[i])
  }

  function ToLowerChar(c: char): (l: char)
    ensures !IsUpper(l)
    ensures !IsUpper(c) ==> l == c
    ensures IsCombiningMark(l) == IsCombiningMark(c)
  {
    if IsUpper(c) then (c as int + 32) as char else c
  }

  /** The canonical decomposition of one character: a base letter followed by
      one combining mark for the accented letters, the character itself otherwise. */
  function Decomposition(c: char): (d: seq<char>)
    ensures !IsDecomposable(c) ==> d == [c]
    ensures IsDecomposable(c) ==>
      |d| == 2 && IsCombiningMark(d[1]) &&
      (('a' <= d[0] <= 'z' && !IsUpper(c)) || ('A' <= d[0] <= 'Z' && IsUpper(c)))
  {
    match c
    case 'À' => ['A', Grave]      case 'Á' => ['A', Acute]      case 'Â' => ['A', Circumflex]
    case 'Ã' => ['A', Tilde]      case 'Ä' => ['A', Diaeresis]  case 'Å' => ['A', Ring]
    case 'Ç' => ['C', Cedilla]
    case 'È' => ['E', Grave]      case 'É' => ['E', Acute]      case 'Ê' => ['E', Circumflex]
    case 'Ë' => ['E', Diaeresis]
    case 'Ì' => ['I', Grave]      case 'Í' => ['I', Acute]      case 'Î' => ['I', Circumflex]
    case 'Ï' => ['I', Diaeresis]
    case 'Ñ' => ['N', Tilde]
    case 'Ò' => ['O', Grave]      case 'Ó' => ['O', Acute]      case 'Ô' => ['O', Circumflex]
    case 'Õ' => ['O', Tilde]      case 'Ö' => ['O', Diaeresis]
    case 'Ù' => ['U', Grave]      case 'Ú' => ['U', Acute]      case 'Û' => ['U', Circumflex]
    case 'Ü' => ['U', Diaeresis]
    case 'Ý' => ['Y', Acute]
    case 'à' => ['a', Grave]      case 'á' => ['a', Acute]      case 'â' => ['a', Circumflex]
    case 'ã' => ['a', Tilde]      case 'ä' => ['a', Diaeresis]  case 'å' => ['a', Ring]
    case 'ç' => ['c', Cedilla]
    case 'è' => ['e', Grave]      case 'é' => ['e', Acute]      case 'ê' => ['e', Circumflex]
    case 'ë' => ['e', Diaeresis]
    case 'ì' => ['i', Grave]      case 'í' => ['i', Acute]      case 'î' => ['i', Circumflex]
    case 'ï' => ['i', Diaeresis]
    case 'ñ' => ['n', Tilde]
    case 'ò' => ['o', Grave]      case 'ó' => ['o', Acute]      case 'ô' => ['o', Circumflex]
    case 'õ' => ['o', Tilde]      case 'ö' => ['o', Diaeresis]
    case 'ù' => ['u', Grave]      case 'ú' => ['u', Acute]      case 'û' => ['u', Circumflex]
    case 'ü' => ['u', Diaeresis]
    case 'ý' => ['y', Acute]      case 'ÿ' => ['y', Diaeresis]
    case _ => [c]
  }

  /** Stage one: lower-case every character. */
  function Lower(s: string): (r: string)
    ensures |r| == |s|
    ensures forall i | 0 <= i < |s| :: r[i] == ToLowerChar(s[i])
  {
    if s == [] then [] else [ToLowerChar(s[0])] + Lower(s[1..])
  }

  /** Stage two: replace every character by its canonical decomposition. */
  function Decompose(s: string): (r: string)
    ensures forall i | 0 <= i < |r| :: !IsDecomposable(r[i])
    ensures (forall i | 0 <= i < |s| :: !IsUpper(s[i])) ==> forall i | 0 <= i < |r| :: !IsUpper(r[i])
  {
    if s == [] then [] else Decomposition(s[0]) + Decompose(s[1..])
  }

  /** Stage three: delete every combining mark. */
  function StripMarks(s: string): (r: string)
    ensures |r| <= |s|
    ensures forall i | 0 <= i < |r| :: !IsCombiningMark(r[i])
  {
    Filter(s, c => !IsCombiningMark(c))
  }

  /** Stripping deletes the marks and nothing else: every other character is
      kept, in order, and the result is shorter by exactly the number of marks. */
  lemma StripMarksEffect(s: string)
    ensures forall c :: c in StripMarks(s) <==> c in s && !IsCombiningMark(c)
    ensures IsSubsequence(StripMarks(s), s)
    ensures |StripMarks(s)| + |Filter(s, IsCombiningMark)| == |s|
  {
    forall c ensures c in StripMarks(s) <==> c in s && !IsCombiningMark(c) {
      FilterMembers(s, c => !IsCombiningMark(c), c);
    }
    FilterIsSubsequence(s, c => !IsCombiningMark(c));
    FilterPartition(s, c => !IsCombiningMark(c), IsCombiningMark);
  }

  /** The comparison form of a text: lower-cased, decomposed, marks removed. */
  function NormalizeText(text: string): (r: string)
    ensures forall i | 0 <= i < |r| :: !IsCombiningMark(r[i])
  {
    StripMarks(Decompose(Lower(text)))
  }

  /** Whether the normalised search term occurs in the normalised form of some field. */
  function SearchMatch(searchTerm: string, fields: seq<string>): (r: bool)
    ensures r <==> exists k :: 0 <= k < |fields| && Includes(NormalizeText(fields[k]), NormalizeText(searchTerm))
  {
    AnyFieldIncludes(fields, NormalizeText(searchTerm))
  }

  /** Whether `needle` occurs in the normal form of some field; false when there is no field. */
  function AnyFieldIncludes(fields: seq<string>, needle: string): (r: bool)
    ensures r <==> exists k :: 0 <= k < |fields| && Includes(NormalizeText(fields[k]), needle)
  {
    if fields == [] then false
    else
      assert forall i | 1 <= i < |fields| :: fields[i] == fields[1..][i - 1];
      Includes(NormalizeText(fields[0]), needle) || AnyFieldIncludes(fields[1..], needle)
  }

  // ----- The normal form -----

  lemma {:induction false} StripMarksKeepsNormal(s: string)
    requires forall i | 0 <= i < |s| :: !IsUpper(s[i]) && !IsDecomposable(s[i])
    ensures IsNormal(StripMarks(s))
  {
    var r := StripMarks(s);
    forall i | 0 <= i < |r| ensures IsNormalChar(r[i]) {
      FilterMembers(s, c => !IsCombiningMark(c), r[i]);
    }
  }

  /** The normaliser's output has no upper-case letter, no decomposable letter
      and no combining mark. */
  lemma NormalizeTextIsNormal(text: string)
    ensures IsNormal(NormalizeText(text))
  {
    StripMarksKeepsNormal(Decompose(Lower(text)));
  }

  /** No character of U+0300..U+036F survives normalisation. */
  lemma NormalizeTextRemovesMarks(text: string, i: nat)
    requires i < |NormalizeText(text)|
    ensures !IsCombiningMark(NormalizeText(text)[i])
  {
    NormalizeTextIsNormal(text);
  }

  lemma {:induction false} DecomposeFixesNormal(t: string)
    requires IsNormal(t)
    ensures Decompose(t) == t
  {
    if t != [] {
      DecomposeFixesNormal(t[1..]);
    }
  }

  /** Normal text is its own normal form. */
  lemma NormalizeTextFixesNormal(t: string)
    requires IsNormal(t)
    ensures NormalizeText(t) == t
  {
    assert Lower(t) == t;
    DecomposeFixesNormal(t);
    FilterKeepsAll(t, c => !IsCombiningMark(c));
  }

  /** Normalising twice is normalising once. */
  lemma NormalizeTextIsIdempotent(text: string)
    ensures NormalizeText(NormalizeText(text)) == NormalizeText(text)
  {
    NormalizeTextIsNormal(text);
    NormalizeTextFixesNormal(NormalizeText(text));
  }

  // ----- Case and accent insensitivity -----

  lemma LowerIsIdempotent(s: string)
    ensures Lower(Lower(s)) == Lower(s)
  {
  }

  /** Lower-casing a text first does not change its normal form. */
  lemma NormalizeTextIgnoresCase(text: string)
    ensures NormalizeText(Lower(text)) == NormalizeText(text)
  {
    LowerIsIdempotent(text);
  }

  /** A letter with an accent, in either case, normalises to its lower-case
      base letter. */
  lemma NormalizeTextDropsAccent(c: char)
    requires IsDecomposable(ToLowerChar(c))
    ensures NormalizeText([c]) == [Decomposition(ToLowerChar(c))[0]]
    ensures 'a' <= NormalizeText([c])[0] <= 'z'
  {
    var l := ToLowerChar(c);
    var d := Decomposition(l);
    assert Lower([c]) == [l];
    assert Decompose([l]) == d + Decompose([]);
    assert Decompose([l]) == d;
    assert Filter([d[1]], c => !IsCombiningMark(c)) == [];
    assert d == [d[0]] + [d[1]];
    FilterAppend([d[0]], [d[1]], c => !IsCombiningMark(c));
  }

  // ----- Normalisation is character by character -----

  lemma LowerAppend(a: string, b: string)
    ensures Lower(a + b) == Lower(a) + Lower(b)
  {
  }

  lemma {:induction false} DecomposeAppend(a: string, b: string)
    ensures Decompose(a + b) == Decompose(a) + Decompose(b)
  {
    if a == [] {
      assert a + b == b;
    } else {
      assert (a + b)[1..] == a[1..] + b;
      DecomposeAppend(a[1..], b);
    }
  }

  /** The normal form of a concatenation is the concatenation of the normal forms. */
  lemma NormalizeTextAppend(a: string, b: string)
    ensures NormalizeText(a + b) == NormalizeText(a) + NormalizeText(b)
  {
    LowerAppend(a, b);
    DecomposeAppend(Lower(a), Lower(b));
    FilterAppend(Decompose(Lower(a)), Decompose(Lower(b)), c => !IsCombiningMark(c));
  }

  /** A character that no character of the text turns into is absent from its normal form. */
  lemma {:induction false} NormalizeTextOmits(s: string, x: char)
    requires forall c | c in s :: x !in Decomposition(ToLowerChar(c))
    ensures x !in NormalizeText(s)
  {
    if s != [] {
      var l := ToLowerChar(s[0]);
      assert s == [s[0]] + s[1..];
      NormalizeTextAppend([s[0]], s[1..]);
      NormalizeTextOmits(s[1..], x);
      assert Lower([s[0]]) == [l];
      assert Decompose([l]) == Decomposition(l) + Decompose([]);
      assert Decompose([l]) == Decomposition(l);
      assert NormalizeText([s[0]]) == StripMarks(Decomposition(l));
      assert x !in Decomposition(l) by { assert s[0] in s; }
      FilterMembers(Decomposition(l), c => !IsCombiningMark(c), x);
    }
  }

  // ----- The match predicate -----

  /** An empty search term matches as soon as one field is given. */
  lemma EmptyTermMatchesAnyField(fields: seq<string>)
    requires |fields| > 0
    ensures SearchMatch("", fields)
  {
    assert NormalizeText("") == "";
    assert Includes(NormalizeText(fields[0]), "");
  }

  /** With no field to search, nothing matches. */
  lemma NoFieldNoMatch(searchTerm: string)
    ensures !SearchMatch(searchTerm, [])
  {
  }

  /** A term whose normal form is empty (for instance, only marks) matches
      every non-empty list of fields. */
  lemma MarksOnlyTermMatchesAnyField(searchTerm: string, fields: seq<string>)
    requires |fields| > 0 && NormalizeText(searchTerm) == ""
    ensures SearchMatch(searchTerm, fields)
  {
    assert Includes(NormalizeText(fields[0]), "");
  }

  /** Supplying more fields, or the same fields in another order, never turns
      a match into a non-match. */
  lemma SearchMatchIsMonotone(searchTerm: string, fields: seq<string>, more: seq<string>)
    requires forall f | f in fields :: f in more
    requires SearchMatch(searchTerm, fields)
    ensures SearchMatch(searchTerm, more)
  {
    var k :| 0 <= k < |fields| && Includes(NormalizeText(fields[k]), NormalizeText(searchTerm));
    assert fields[k] in more;
    var j :| 0 <= j < |more| && more[j] == fields[k];
  }

  /** The order of the fields does not matter. */
  lemma SearchMatchIgnoresOrder(searchTerm: string, fields: seq<string>, reordered: seq<string>)
    requires multiset(fields) == multiset(reordered)
    ensures SearchMatch(searchTerm, fields) == SearchMatch(searchTerm, reordered)
  {
    forall f | f in fields ensures f in reordered {
      assert f in multiset(fields);
    }
    forall f | f in reordered ensures f in fields {
      assert f in multiset(reordered);
    }
    if SearchMatch(searchTerm, fields) {
      SearchMatchIsMonotone(searchTerm, fields, reordered);
    }
    if SearchMatch(searchTerm, reordered) {
      SearchMatchIsMonotone(searchTerm, reordered, fields);
    }
  }

  /** A term whose normal form has a character absent from the normal form of
      every field matches nothing. */
  lemma MissingCharacterMatchesNothing(searchTerm: string, fields: seq<string>, x: char)
    requires x in NormalizeText(searchTerm)
    requires forall k | 0 <= k < |fields| :: x !in NormalizeText(fields[k])
    ensures !SearchMatch(searchTerm, fields)
  {
    forall k | 0 <= k < |fields| ensures !Includes(NormalizeText(fields[k]), NormalizeText(searchTerm)) {
      IncludesOnlyOwnCharacters(NormalizeText(fields[k]), NormalizeText(searchTerm), x);
    }
  }

  /** Normalising the term beforehand does not change the result. */
  lemma SearchMatchNormalizedTerm(searchTerm: string, fields: seq<string>)
    ensures SearchMatch(NormalizeText(searchTerm), fields) == SearchMatch(searchTerm, fields)
  {
    NormalizeTextIsIdempotent(searchTerm);
  }

  // ----- Examples -----

  /** An upper-case accented letter and its lower-case base letter compare equal. */
  lemma AccentedCapitalMatchesBaseLetter()
    ensures NormalizeText("É") == NormalizeText("e") == "e"
  {
    NormalizeTextDropsAccent('É');
    NormalizeTextFixesNormal("e");
  }

  lemma NormalizeTextAppend3(a: string, b: string, c: string)
    ensures NormalizeText(a + b + c) == NormalizeText(a) + NormalizeText(b) + NormalizeText(c)
  {
    NormalizeTextAppend(a + b, c);
    NormalizeTextAppend(a, b);
  }

  lemma NormalizeAccentedE()
    ensures NormalizeText("é") == "e"
  {
    NormalizeTextDropsAccent('é');
  }

  lemma NormalizeCapitalisedPrefix()
    ensures NormalizeText("Parac") == "parac"
  {
  }

  lemma NormalizeUnaccentedSuffix()
    ensures NormalizeText("tamol 500mg") == "tamol 500mg"
  {
    NormalizeTextFixesNormal("tamol 500mg");
  }

  lemma NormalizeParacetamolTerm()
    ensures NormalizeText("paracetamol") == "paracetamol"
  {
    NormalizeTextFixesNormal("paracetamol");
  }

  /** The normal form of the first catalogue entry's name, "Paracétamol 500mg"
      (written in pieces around its accented letter). */
  lemma NormalizeParacetamolName()
    ensures NormalizeText("Parac" + "é" + "tamol 500mg") == "parac" + "e" + "tamol 500mg"
  {
    NormalizeCapitalisedPrefix();
    NormalizeUnaccentedSuffix();
    NormalizeAccentedE();
    NormalizeTextAppend3("Parac", "é", "tamol 500mg");
  }

  /** A term whose normal form begins the normal form of the first field matches. */
  lemma PrefixOfFirstFieldMatches(searchTerm: string, fields: seq<string>)
    requires |fields| > 0 && NormalizeText(searchTerm) <= NormalizeText(fields[0])
    ensures SearchMatch(searchTerm, fields)
  {
    assert Includes(NormalizeText(fields[0]), NormalizeText(searchTerm));
  }

  lemma ParacetamolIsPrefix()
    ensures "paracetamol" <= "parac" + "e" + "tamol 500mg"
  {
  }

  /** The normal form of the term begins the normal form of the name. */
  lemma ParacetamolNormalFormsAgree()
    ensures NormalizeText("paracetamol") <= NormalizeText("Parac" + "é" + "tamol 500mg")
  {
    NormalizeParacetamolName();
    NormalizeParacetamolTerm();
    ParacetamolIsPrefix();
  }

  /** An unaccented lower-case term finds the accented, capitalised name. */
  lemma ParacetamolMatchesAccentedName(description: string, location: string)
    ensures SearchMatch("paracetamol", ["Parac" + "é" + "tamol 500mg", description, location])
  {
    ParacetamolNormalFormsAgree();
    PrefixOfFirstFieldMatches("paracetamol", ["Parac" + "é" + "tamol 500mg", description, location]);
  }
}
