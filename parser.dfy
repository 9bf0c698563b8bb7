/** Lexical classification of the words of one CC+ line (src/parser.rs). */
module Parser {

  /** Token classes. `TEXT` and `ENDIF` are tags the interpreter dispatches on;
      the tokenizer itself never produces them. */
  datatype Type =
    | CLS | TXT | IF | THEN | THENCOLON | ELSE | ENDIF
    | COLON | COMMENT | ARG | FIX | EQ | TEXT

  /** A classified word. The destructors `tokenType` and `value` are the
      getters `get_type` and `get_value`; `value` is the word as written. */
  datatype Token = Token(tokenType: Type, value: string)

  /** ASCII upper-casing of one character. */
  function UpperChar(c: char): char {
    if 'a' <= c <= 'z' then (c as int - 32) as char else c
  }

  /** Upper-casing of a word, character by character. */
  function Upper(s: string): string {
    if s == [] then [] else [UpperChar(s[0])] + Upper(s[1..])
  }

  /** The keyword table read by tag: the upper-cased spellings of each class. */
  function Spellings(t: Type): set<string> {
    match t
    case COMMENT => {"REM/", "'", "//"}
    case CLS => {"CLS/"}
    case TXT => {"TXT/"}
    case IF => {"IF/"}
    case THENCOLON => {"THEN:"}
    case THEN => {"THEN"}
    case ELSE => {"ELSE/"}
    case FIX => {"FIX/"}
    case COLON => {":"}
    case EQ => {"="}
    case _ => {}
  }

  /** Every spelling in the keyword table. */
  function Keywords(): set<string> {
    Spellings(COMMENT) + Spellings(CLS) + Spellings(TXT) + Spellings(IF)
    + Spellings(THENCOLON) + Spellings(THEN) + Spellings(ELSE) + Spellings(FIX)
    + Spellings(COLON) + Spellings(EQ)
  }

  /** True when some tag of the table is spelled `u`. */
  predicate IsKeyword(u: string) {
    u in Keywords()
  }

  /** `Keywords` is the union of the spellings of every tag. */
  lemma KeywordsAreSpellings(u: string)
    ensures IsKeyword(u) <==> exists t :: u in Spellings(t)
  {
    if u in Keywords() {
      var t :| t in {COMMENT, CLS, TXT, IF, THENCOLON, THEN, ELSE, FIX, COLON, EQ} && u in Spellings(t);
    }
  }

  /** The keyword table of the tokenizer: upper-cased spelling to class. */
  const KeywordTable: map<string, Type> := map[
    "REM/" := COMMENT, "'" := COMMENT, "//" := COMMENT,
    "CLS/" := CLS, "TXT/" := TXT, "IF/" := IF, "THEN:" := THENCOLON,
    "THEN" := THEN, "ELSE/" := ELSE, "FIX/" := FIX, ":" := COLON, "=" := EQ]

  /** The lookup table and the table read by tag hold the same entries. */
  lemma TableAgrees(u: string)
    ensures u in KeywordTable <==> IsKeyword(u)
    ensures u in KeywordTable ==>
      KeywordTable[u] !in {TEXT, ENDIF, ARG} && u in Spellings(KeywordTable[u])
  {
  }

  /** The class of one word: its upper-cased form looked up in the keyword
      table, `ARG` when it is not there. */
  function Classify(word: string): (t: Type)
    ensures t != TEXT && t != ENDIF
    ensures t == ARG <==> !IsKeyword(Upper(word))
    ensures t != ARG ==> Upper(word) in Spellings(t)
  {
    var u := Upper(word);
    TableAgrees(u);
    if u in KeywordTable then KeywordTable[u] else ARG
  }

  /** No spelling belongs to two tags, so the table determines the class. */
  lemma SpellingsDisjoint(t1: Type, t2: Type, u: string)
    requires u in Spellings(t1) && u in Spellings(t2)
    ensures t1 == t2
  {
  }

  /** Classification agrees with the table read by tag, in both directions. */
  lemma ClassifyByTable(word: string, t: Type)
    ensures Classify(word) == t <==>
      (Upper(word) in Spellings(t) || (t == ARG && !IsKeyword(Upper(word))))
  {
    var c := Classify(word);
    if Upper(word) in Spellings(t) {
      if c != ARG {
        SpellingsDisjoint(c, t, Upper(word));
      }
    }
  }

  /** Upper-casing leaves a word without lower-case letters as it is. */
  lemma {:induction false} UpperIdentity(s: string)
    requires forall i :: 0 <= i < |s| ==> !('a' <= s[i] <= 'z')
    ensures Upper(s) == s
  {
    if s != [] {
      UpperIdentity(s[1..]);
    }
  }

  /** Two words that agree letter by letter up to case. */
  predicate SameUpToCase(a: string, b: string) {
    |a| == |b| && forall i :: 0 <= i < |a| ==> UpperChar(a[i]) == UpperChar(b[i])
  }

  lemma {:induction false} UpperSameUpToCase(a: string, b: string)
    requires SameUpToCase(a, b)
    ensures Upper(a) == Upper(b)
  {
    if a != [] {
      assert SameUpToCase(a[1..], b[1..]) by {
        forall i | 0 <= i < |a[1..]| ensures UpperChar(a[1..][i]) == UpperChar(b[1..][i]) {
          assert a[1..][i] == a[i + 1] && b[1..][i] == b[i + 1];
        }
      }
      UpperSameUpToCase(a[1..], b[1..]);
    }
  }

  /** Classification is case-insensitive: words that differ only in letter
      case get the same class. */
  lemma ClassifyIgnoresCase(a: string, b: string)
    requires SameUpToCase(a, b)
    ensures Classify(a) == Classify(b)
  {
    UpperSameUpToCase(a, b);
  }

  /** `REM/`, `'` and `//`, in any letter case, are comment markers. */
  lemma CommentMarkers(word: string)
    requires Upper(word) == "REM/" || Upper(word) == "'" || Upper(word) == "//"
    ensures Classify(word) == COMMENT
  {
  }

  /** `THEN:` and `THEN` are two different tags. */
  lemma ThenForms(word: string)
    ensures Upper(word) == "THEN:" ==> Classify(word) == THENCOLON
    ensures Upper(word) == "THEN" ==> Classify(word) == THEN
  {
  }

  /** The remaining entries of the keyword table. */
  lemma CommandSpellings(word: string)
    ensures Upper(word) == "CLS/" ==> Classify(word) == CLS
    ensures Upper(word) == "TXT/" ==> Classify(word) == TXT
    ensures Upper(word) == "IF/" ==> Classify(word) == IF
    ensures Upper(word) == "ELSE/" ==> Classify(word) == ELSE
    ensures Upper(word) == "FIX/" ==> Classify(word) == FIX
    ensures Upper(word) == ":" ==> Classify(word) == COLON
    ensures Upper(word) == "=" ==> Classify(word) == EQ
  {
  }

  /** `cls/`, `CLS/` and `Cls/` are all the clear-screen command. */
  lemma ClsAnyCase()
    ensures Classify("cls/") == CLS && Classify("CLS/") == CLS && Classify("Cls/") == CLS
  {
    assert Classify("CLS/") == CLS by { UpperIdentity("CLS/"); }
    ClassifyIgnoresCase("cls/", "CLS/");
    ClassifyIgnoresCase("Cls/", "CLS/");
  }

  /** Reference definition of the tokenizer: one token per word, in order. */
  function Tokens(words: seq<string>): seq<Token> {
    if words == [] then [] else [Token(Classify(words[0]), words[0])] + Tokens(words[1..])
  }

  lemma {:induction false} TokensPointwise(words: seq<string>)
    ensures |Tokens(words)| == |words|
    ensures forall i :: 0 <= i < |words| ==> Tokens(words)[i] == Token(Classify(words[i]), words[i])
  {
    if words != [] {
      TokensPointwise(words[1..]);
      forall i | 0 < i < |words|
        ensures Tokens(words)[i] == Token(Classify(words[i]), words[i])
      {
        assert words[1..][i - 1] == words[i];
      }
    }
  }

  /** Tokenizing is order-preserving: it distributes over concatenation. */
  lemma {:induction false} TokensAppend(a: seq<string>, b: seq<string>)
    ensures Tokens(a + b) == Tokens(a) + Tokens(b)
  {
    if a != [] {
      assert (a + b)[1..] == a[1..] + b;
      TokensAppend(a[1..], b);
    } else {
      assert a + b == b;
    }
  }

  /** `tokenize`: pushes one token per word onto a growing vector. */
  method Tokenize(words: seq<string>) returns (v: seq<Token>)
    ensures v == Tokens(words)
    ensures |v| == |words|
    ensures forall i :: 0 <= i < |words| ==>
      v[i].value == words[i] && v[i].tokenType == Classify(words[i])
    ensures forall i :: 0 <= i < |v| ==> v[i].tokenType != TEXT && v[i].tokenType != ENDIF
  {
    v := [];
    for i := 0 to |words|
      invariant v == Tokens(words[..i])
    {
      var tokenType := Classify(words[i]);
      TokensAppend(words[..i], [words[i]]);
      assert words[..i + 1] == words[..i] + [words[i]];
      v := v + [Token(tokenType, words[i])];
    }
    assert words[..|words|] == words;
    TokensPointwise(words);
  }
}
