/** The phrase translator of Level-3/translator_tool.py: a fixed English to
    German table, looked up with the surrounding whitespace of the phrase
    removed, and a placeholder for every phrase the table lacks. */
module Translator {
  import opened Text

  const Table: map<string, string> := map[
    "Good Morning" := "Guten Morgen",
    "Have a nice day" := "Einen sch\U{F6}nen Tag noch",
    "Sunshine" := "Sonnenschein"
  ]

  const NotFound: string := "[No translation found for '"

  /** The reply for a phrase the table does not hold; it quotes the phrase as it was given. */
  function Missing(text: string): (r: string)
    ensures |r| == |NotFound| + |text| + 2
    ensures r[..|NotFound|] == NotFound && r[|NotFound|..|NotFound| + |text|] == text
  {
    NotFound + text + "']"
  }

  /** `translate_to_german(text)`. */
  function Translate(text: string): string {
    var key := Strip(text);
    if key in Table then Table[key] else Missing(text)
  }

  lemma TableContents()
    ensures Table.Keys == {"Good Morning", "Have a nice day", "Sunshine"}
    ensures Table.Values == {"Guten Morgen", "Einen sch\U{F6}nen Tag noch", "Sonnenschein"}
  {
  }

  /** The table has exactly three entries. */
  lemma TableSize()
    ensures |Table| == 3
  {
    TableContents();
    assert "Good Morning"[0] == 'G' && "Have a nice day"[0] == 'H' && "Sunshine"[0] == 'S';
  }

  /** No translation looks like the placeholder, and no two keys share a translation. */
  lemma TableDistinct()
    ensures forall v :: v in Table.Values ==> v[0] != '['
    ensures forall k, l :: k in Table && l in Table && Table[k] == Table[l] ==> k == l
  {
    TableContents();
    assert Table["Good Morning"] == "Guten Morgen" && Table["Have a nice day"] == "Einen sch\U{F6}nen Tag noch" && Table["Sunshine"] == "Sonnenschein";
    assert "Guten Morgen"[0] == 'G' && "Einen sch\U{F6}nen Tag noch"[0] == 'E' && "Sonnenschein"[0] == 'S';
  }

  /** A translation comes back exactly when the stripped phrase is a key, and
      it is the translation of that key and of no other. */
  lemma TranslatedIff(text: string)
    ensures Strip(text) in Table <==> Translate(text) in Table.Values
    ensures forall k :: k in Table ==> (Translate(text) == Table[k] <==> Strip(text) == k)
  {
    TableDistinct();
    var r := Translate(text);
    if Strip(text) !in Table {
      assert r[0] == '[';
    }
  }

  /** Whitespace around a phrase of the table does not change its translation. */
  lemma PaddingIgnored(before: string, key: string, after: string)
    requires AllSpace(before) && AllSpace(after) && key in Table
    ensures Translate(before + key + after) == Table[key]
  {
    StripPadded(before, key, after);
  }

  /** The lookup is exact, so a phrase in other letter case is not found, and
      the placeholder quotes the phrase as given, whitespace and all. */
  lemma CaseSensitive()
    ensures Translate(" good morning ") == Missing(" good morning ")
  {
    var core := "good morning";
    assert " good morning " == " " + core + " ";
    StripPadded(" ", core, " ");
    assert core !in Table by {
      TableContents();
      assert core[0] == 'g';
    }
  }
}
