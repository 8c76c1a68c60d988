/**
 * Expansion of French street-type abbreviations (`typeVoieDictionary` and
 * `getFullTypeVoie` in the registry controller).
 */
module StreetTypes {

  /** The fixed abbreviation table; every key is upper case. */
  const Table: map<string, string> := map[
    "ALL" := "All\U{E9}e",
    "AV" := "Avenue",
    "BD" := "Boulevard",
    "CH" := "Chemin",
    "CHEM" := "Chemin",
    "IMP" := "Impasse",
    "PL" := "Place",
    "PT" := "Petite Route",
    "RLE" := "Ruelle",
    "RUE" := "Rue",
    "SQ" := "Square",
    "CRS" := "Cours",
    "ESP" := "Esplanade",
    "FBG" := "Faubourg",
    "GDE" := "Grande",
    "PAS" := "Passage",
    "PCE" := "Place",
    "QAI" := "Quai",
    "RPT" := "Rond-Point",
    "RT" := "Route",
    "SENT" := "Sentier",
    "TSSE" := "Terrasse",
    "VLA" := "Villa",
    "VOIE" := "Voie",
    "CARF" := "Carrefour",
    "CG" := "Chauss\U{E9}e",
    "CIT\U{C9}" := "Cit\U{E9}",
    "CLOS" := "Clos",
    "CNE" := "Corniche",
    "DOM" := "Domaine",
    "LOT" := "Lotissement",
    "MAIL" := "Mail",
    "PARC" := "Parc",
    "QU" := "Quartier"
  ]

  /**
   * Upper-case form of one character, as `String.prototype.toUpperCase`
   * gives it for ASCII letters, the Latin-1 letters, dotless i and long s.
   * The sharp s becomes two letters. Every other character is kept.
   */
  function UpperChar(c: char): (u: seq<char>)
    ensures c != '\U{DF}' ==> |u| == 1
  {
    if 'a' <= c <= 'z' then [(c as int - 32) as char]
    else if '\U{E0}' <= c <= '\U{FE}' && c != '\U{F7}' then [(c as int - 32) as char]
    else if c == '\U{FF}' then ['\U{178}']
    else if c == '\U{B5}' then ['\U{39C}']
    else if c == '\U{DF}' then ['S', 'S']
    else if c == '\U{131}' then ['I']
    else if c == '\U{17F}' then ['S']
    else [c]
  }

  /** `s.toUpperCase()`, character by character. */
  function Upper(s: string): (u: string)
  {
    if s == [] then [] else UpperChar(s[0]) + Upper(s[1..])
  }

  /** `getFullTypeVoie`: the table entry for the upper-cased input, or the input itself. */
  function Expand(abbreviation: string): (r: string)
    ensures Upper(abbreviation) in Table ==> r == Table[Upper(abbreviation)]
    ensures Upper(abbreviation) !in Table ==> r == abbreviation
  {
    var key := Upper(abbreviation);
    if key in Table then Table[key] else abbreviation
  }
}

module StreetTypeFacts {
  import opened StreetTypes

  /** The characters the table's keys are written with. */
  predicate IsKeyChar(c: char) {
    'A' <= c <= 'Z' || c == '\U{C9}'
  }

  /** Lower-case form of a key character (the inverse direction of `UpperChar`). */
  function LowerChar(c: char): char {
    if 'A' <= c <= 'Z' || c == '\U{C9}' then (c as int + 32) as char else c
  }

  function Lower(s: string): (l: string)
    ensures |l| == |s|
  {
    if s == [] then [] else [LowerChar(s[0])] + Lower(s[1..])
  }

  lemma {:induction false} UpperLength(s: string)
    requires forall i :: 0 <= i < |s| ==> s[i] != '\U{DF}'
    ensures |Upper(s)| == |s|
  {
    if s != [] {
      UpperLength(s[1..]);
    }
  }

  /** No lower-case ASCII letter survives upper-casing. */
  lemma {:induction false} UpperLeavesNoLowerCase(s: string)
    ensures forall i :: 0 <= i < |Upper(s)| ==> !('a' <= Upper(s)[i] <= 'z')
  {
    if s != [] {
      UpperLeavesNoLowerCase(s[1..]);
      var head := UpperChar(s[0]);
      assert forall i :: 0 <= i < |head| ==> !('a' <= head[i] <= 'z');
      assert Upper(s) == head + Upper(s[1..]);
    }
  }

  /** Upper-casing the lower-case spelling of a key-alphabet word gives the word back. */
  lemma {:induction false} UpperOfLower(s: string)
    requires forall i :: 0 <= i < |s| ==> IsKeyChar(s[i])
    ensures Upper(Lower(s)) == s
  {
    if s != [] {
      UpperOfLower(s[1..]);
      assert Lower(s)[1..] == Lower(s[1..]);
    }
  }

  /** Upper-casing is the identity on words of the key alphabet. */
  lemma {:induction false} UpperOfKeyWord(s: string)
    requires forall i :: 0 <= i < |s| ==> IsKeyChar(s[i])
    ensures Upper(s) == s
  {
    if s != [] {
      UpperOfKeyWord(s[1..]);
    }
  }

  lemma KeysAreKeyWords(k: string)
    requires k in Table
    ensures |k| <= 4
    ensures forall i :: 0 <= i < |k| ==> IsKeyChar(k[i])
  {
  }

  /** Every abbreviation of the table, written in upper case, expands to its entry. */
  lemma ExpandKey(k: string)
    requires k in Table
    ensures Expand(k) == Table[k]
  {
    KeysAreKeyWords(k);
    UpperOfKeyWord(k);
  }

  /** Every abbreviation of the table, written in lower case, expands to its entry. */
  lemma ExpandLowerKey(k: string)
    requires k in Table
    ensures Expand(Lower(k)) == Table[k]
  {
    KeysAreKeyWords(k);
    UpperOfLower(k);
  }

  /** The lookup ignores letter case: two spellings with the same upper-case form expand alike. */
  lemma ExpandCaseInsensitive(a: string, b: string)
    requires Upper(a) == Upper(b)
    ensures Upper(a) in Table ==> Expand(a) == Expand(b)
    ensures Upper(a) !in Table ==> Expand(a) == a && Expand(b) == b
  {
  }

  /** The expansions of four letters or fewer, each checked against the table. */
  lemma ShortEntryIsFixed(v: string)
    requires v in {"Rue", "Voie", "Cit\U{E9}", "Clos", "Mail", "Parc", "Quai"}
    ensures Expand(v) == v
  {
    var u := Upper(v);
    if v == "Quai" {
      assert u == "QUAI" by { assert Upper("Quai") == "QUAI"; }
    } else if v == "Rue" {
      assert u == "RUE" by { assert Upper("Rue") == "RUE"; }
    } else if v == "Voie" {
      assert u == "VOIE" by { assert Upper("Voie") == "VOIE"; }
    } else if v == "Cit\U{E9}" {
      assert u == "CIT\U{C9}" by { assert Upper("Cit\U{E9}") == "CIT\U{C9}"; }
    } else if v == "Clos" {
      assert u == "CLOS" by { assert Upper("Clos") == "CLOS"; }
    } else if v == "Mail" {
      assert u == "MAIL" by { assert Upper("Mail") == "MAIL"; }
    } else {
      assert u == "PARC" by { assert Upper("Parc") == "PARC"; }
    }
  }

  /**
   * Every expansion in the table is left unchanged by `Expand`: its upper-case
   * form is either no key at all or a key that maps back to it.
   */
  lemma ExpandEntry(k: string)
    requires k in Table
    ensures Expand(Table[k]) == Table[k]
  {
    var v := Table[k];
    if |v| > 4 {
      assert forall i :: 0 <= i < |v| ==> v[i] != '\U{DF}';
      UpperLength(v);
      if Upper(v) in Table {
        KeysAreKeyWords(Upper(v));
      }
    } else {
      ShortEntryIsFixed(v);
    }
  }

  /** Expanding twice is expanding once. */
  lemma ExpandIdempotent(s: string)
    ensures Expand(Expand(s)) == Expand(s)
  {
    if Upper(s) in Table {
      ExpandEntry(Upper(s));
    }
  }
}
