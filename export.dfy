/** The name of the downloaded file: the portfolio owner's name with every
    whitespace run replaced by `_`, lower-cased, `portfolio` when that is
    empty, followed by `.html`. */
module Export {
  import opened Text

  const Fallback: string := "portfolio"
  const Extension: string := ".html"

  /** The part of the file name before `.html`, before the fallback applies: it never holds
      whitespace, is no longer than the name, and is empty exactly for the empty name. */
  function Stem(name: string): (r: string)
    ensures NoWhitespace(r)
    ensures r == [] <==> name == []
    ensures |r| <= |name|
  {
    LowerCaseKeepsNoWhitespace(CollapseWhitespace(name));
    LowerCase(CollapseWhitespace(name))
  }

  function ExportFileName(name: string): (f: string)
    ensures name == "" ==> f == Fallback + Extension
    ensures name != "" ==> f == Stem(name) + Extension
    ensures |f| > |Extension| && f[|f| - |Extension|..] == Extension
  {
    var stem := Stem(name);
    (if stem == "" then Fallback else stem) + Extension
  }

  /** A name made of whitespace only is not empty, so it gets `_`, not the fallback. */
  lemma WhitespaceOnlyName(name: string)
    requires name != [] && AllWhitespace(name)
    ensures ExportFileName(name) == "_.html"
  {
    CollapseOneRun(name);
    assert LowerCase("_") == "_";
  }

  /** Two words joined by any whitespace run give the two lower-cased words joined by `_`. */
  lemma TwoWordName(first: string, gap: string, last: string)
    requires first != [] && last != [] && gap != []
    requires NoWhitespace(first) && NoWhitespace(last) && AllWhitespace(gap)
    ensures ExportFileName(first + gap + last) == LowerCase(first) + "_" + LowerCase(last) + Extension
  {
    var c := first + "_" + last;
    calc {
      CollapseWhitespace(first + gap + last);
      { assert first + gap + last == first + (gap + last); }
      CollapseWhitespace(first + (gap + last));
      { CollapseConcat(first, gap + last); }
      CollapseWhitespace(first) + CollapseWhitespace(gap + last);
      { CollapseConcat(gap, last); }
      CollapseWhitespace(first) + (CollapseWhitespace(gap) + CollapseWhitespace(last));
      { CollapseKeepsWords(first); CollapseKeepsWords(last); CollapseOneRun(gap); }
      first + ("_" + last);
      c;
    }
    LowerCaseConcat(first, "_" + last);
    LowerCaseConcat("_", last);
    assert LowerCase("_") == "_";
    assert c != [];
  }

  lemma JaneDoe()
    ensures ExportFileName("Jane Doe") == "jane_doe.html"
  {
    var first, last := "Jane", "Doe";
    assert NoWhitespace(first) && NoWhitespace(last) && AllWhitespace(" ");
    TwoWordName(first, " ", last);
    assert first + " " + last == "Jane Doe";
    var lf, ll := LowerCase(first), LowerCase(last);
    assert lf[0] == Lower('J') == 'j';
    assert lf[1] == Lower('a') == 'a';
    assert lf[2] == Lower('n') == 'n';
    assert lf[3] == Lower('e') == 'e';
    assert lf == "jane";
    assert ll[0] == Lower('D') == 'd';
    assert ll[1] == Lower('o') == 'o';
    assert ll[2] == Lower('e') == 'e';
    assert ll == "doe";
    assert lf + "_" + ll + Extension == "jane_doe.html";
  }

  /** Deriving a name from a name already derived changes nothing. */
  lemma StemIdempotent(name: string)
    ensures Stem(Stem(name)) == Stem(name)
  {
    CollapseKeepsWords(Stem(name));
    LowerCaseIdempotent(CollapseWhitespace(name));
  }
}
