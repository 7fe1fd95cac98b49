/** The headings the printer never writes but the parser reads (ideation/faqdef/rehearse.ts): free
    words with the id in parentheses. */
module QaFallback {
  import opened Sequences
  import opened Text
  import opened QaSheet

  // ------------------------------------------------------------------- characters and ids

  /** The classes `\w`, `[a-z0-9_-]` and the line terminators, by code point. */
  lemma CharsExactly(c: char)
    ensures WordChar(c) <==> 97 <= c as int <= 122 || 65 <= c as int <= 90 || 48 <= c as int <= 57 || c as int == 95
    ensures SlugChar()(c) <==> 97 <= c as int <= 122 || 48 <= c as int <= 57 || c as int == 95 || c as int == 45
    ensures LineBreak(c) <==> c as int in {10, 13, 8232, 8233}
  {
  }

  /** `q-` and two digits, in either case. */
  ghost predicate Id(s: string) {
    |s| == 4 && s[0] in {'q', 'Q'} && s[1] == '-' && 48 <= s[2] as int <= 57 && 48 <= s[3] as int <= 57
  }

  /** The leading token is an id when it ends in one, after word characters and hyphens only. */
  lemma LeadIdExactly(t: string)
    ensures LeadId(t).Some? <==>
      |t| >= 4 && Id(t[|t| - 4..]) && forall i :: 0 <= i < |t| - 4 ==> WordChar(t[i]) || t[i] == '-'
    ensures LeadId(t).Some? ==> LeadId(t).value == t
  {
  }

  /** The first id in parentheses is read, and taking such ids out removes it. */
  lemma {:induction false} ParenRead(before: string, id: string)
    requires '(' !in before && Id(id)
    ensures ParenId(before + "(" + id + ")") == Some(id)
    ensures RemoveParenIds(before + "(" + id + ")") == before
  {
    var s := before + "(" + id + ")";
    assert |s| == |before| + 6;
    if before == "" {
      assert s[0] == '(' && s[1..5] == id && s[5] == ')' && s[6..] == "";
    } else {
      ParenRead(before[1..], id);
      assert s[1..] == before[1..] + "(" + id + ")" && s[0] == before[0] && before[0] in before;
      assert [before[0]] + before[1..] == before;
    }
  }

  lemma {:induction false} NoBracket(s: string)
    requires '[' !in s
    ensures Bracket(s) == None
  {
    if s != [] {
      NoBracket(s[1..]);
      assert s[0] in s;
    }
  }

  // ------------------------------------------------------------------- words

  /** A word of a fallback heading: letters, digits, underscores and hyphens. */
  ghost predicate PlainWord(w: string) { w != "" && forall i :: 0 <= i < |w| ==> WordChar(w[i]) || w[i] == '-' }

  /** The two fillers of a heading are no tags. */
  ghost predicate Filler(t: string) { t == "sponsor-track" || t == "placeholder" }

  lemma {:induction false} WordsFirst(w: string, rest: string)
    requires forall i :: 0 <= i < |w| ==> WordChar(w[i]) || w[i] == '-'
    ensures Words(w + " " + rest) == [w] + Words(rest)
  {
    var s := w + " " + rest;
    if w == "" {
      assert s[0] == ' ' && s[1..] == rest;
    } else {
      WordsFirst(w[1..], rest);
      assert s[1..] == w[1..] + " " + rest && s[0] == w[0];
      assert [w[0]] + w[1..] == w;
    }
  }

  function Spaced(words: seq<string>): string { if words == [] then "" else words[0] + " " + Spaced(words[1..]) }

  lemma {:induction false} WordsRead(words: seq<string>)
    requires forall w :: w in words ==> PlainWord(w)
    ensures Words(Spaced(words)) == words + [""]
  {
    if words != [] {
      assert words[0] in words;
      WordsRead(words[1..]);
      WordsFirst(words[0], Spaced(words[1..]));
      assert [words[0]] + words[1..] == words;
    }
  }

  lemma WordTrimmed(w: string)
    requires PlainWord(w)
    ensures Trim(w) == w
  {
    assert !IsSpace(w[0]) && !IsSpace(w[|w| - 1]);
    TrimFixed(w);
  }

  lemma LowerSlugs(w: string)
    requires PlainWord(w)
    ensures forall c :: c in Lower(w) ==> SlugChar()(c)
  {
    LowerExactly(w);
    forall c | c in Lower(w)
      ensures SlugChar()(c)
    {
      var i :| 0 <= i < |Lower(w)| && Lower(w)[i] == c;
      CharsExactly(c);
      CharsExactly(w[i]);
    }
  }

  lemma SlugRead(w: string)
    requires PlainWord(w)
    ensures Slug()(w) == Lower(w) != ""
  {
    hide *;
    SlugIs(w);
    NotEmpty(w);
    WordTrimmed(w);
    LowerSlugs(w);
    FilterAll(Lower(w), SlugChar());
  }

  lemma SlugIs(w: string)
    ensures Slug()(w) == Filter(Lower(Trim(w)), SlugChar())
  {
  }

  lemma NotEmpty(w: string)
    requires PlainWord(w)
    ensures Lower(w) != ""
  {
  }

  lemma {:induction false} SpacedFree(words: seq<string>)
    requires forall w :: w in words ==> PlainWord(w)
    ensures '(' !in Spaced(words) && '[' !in Spaced(words)
  {
    if words != [] {
      assert words[0] in words;
      SpacedFree(words[1..]);
    }
  }

  lemma SlugsMap(words: seq<string>)
    requires forall w :: w in words ==> PlainWord(w)
    ensures Map(words, Slug()) == Map(words, Lower) && forall t :: t in Map(words, Lower) ==> t != ""
  {
    hide *;
    forall i | 0 <= i < |words|
      ensures Slug()(words[i]) == Lower(words[i]) != ""
    {
      SlugRead(words[i]);
    }
  }

  lemma SlugsRead(words: seq<string>)
    requires forall w :: w in words ==> PlainWord(w)
    ensures Filter(Map(words + [""], Slug()), RealTag()) == Filter(Map(words, Lower), (t: string) => !Filler(t))
  {
    hide *;
    BlankSlug();
    SlugsMap(words);
    MapAppend(words, "", Slug());
    var tags := Map(words, Lower);
    FilterAppend(tags, [""], RealTag());
    FilterOne("", RealTag());
    RealExactly();
    FilterSame(tags, RealTag(), (t: string) => !Filler(t));
    assert Filter(tags, RealTag()) + [] == Filter(tags, RealTag());
  }

  lemma RealExactly()
    ensures forall t: string :: RealTag()(t) <==> t != "" && !Filler(t)
  {
  }

  lemma BlankSlug()
    ensures Slug()("") == "" && !RealTag()("")
  {
    hide *;
    SlugIs("");
    RealExactly();
    BlankParts();
    FilterNone("", SlugChar());
  }

  lemma BlankParts()
    ensures Trim("") == "" && Lower("") == ""
  {
  }

  lemma HeadFree(words: seq<string>, id: string)
    requires Id(id) && forall w :: w in words ==> PlainWord(w)
    ensures '[' !in Spaced(words) + "(" + id + ")"
  {
    SpacedFree(words);
    assert forall c :: c in Spaced(words) + "(" + id + ")" ==> c in Spaced(words) || c == '(' || c in id || c == ')';
  }

  /** A heading of plain words followed by an id in parentheses is read as that id, in small letters,
      and those words but the fillers as tags, in small letters and in order. */
  lemma FallbackHeading(words: seq<string>, id: string)
    requires Id(id) && forall w :: w in words ==> PlainWord(w)
    ensures var head := Spaced(words) + "(" + id + ")";
      IdOf(head) == Lower(id) && TagsIn(head) == Filter(Map(words, Lower), (t: string) => !Filler(t))
  {
    hide *;
    var head := Spaced(words) + "(" + id + ")";
    SpacedFree(words);
    ParenRead(Spaced(words), id);
    HeadFree(words, id);
    NoBracket(head);
    WordsRead(words);
    SlugsRead(words);
    IdChosen(head, id);
    TagsChosen(head, words + [""], Spaced(words));
  }

  lemma IdChosen(head: string, id: string)
    requires ParenId(head) == Some(id)
    ensures IdOf(head) == Lower(id)
  {
  }

  lemma TagsChosen(head: string, words: seq<string>, rest: string)
    requires Bracket(head) == None && RemoveParenIds(head) == rest && Words(rest) == words
    ensures TagsIn(head) == Filter(Map(words, Slug()), RealTag())
  {
    hide RealTag;
    hide Slug;
    hide Filter;
    hide Map;
    hide SplitOn;
    hide NonEmpty;
    hide Bracket;
    hide RemoveParenIds;
    hide Words;
  }
}
