/** Merging the result of a scrape into the medium's document: what it keeps of the document, and when merging the same
    result once more commits the same thing again. */
module ScrapeMerge {
  import opened Basics
  import Text

  /** A value under `extra`; only strings are looked into. */
  datatype Value = Str(text: string) | Other(json: string)

  datatype Result = Result(poster: string, backdrop: string, logo: string, extra: map<string, Value>, rest: string)

  datatype Document = Document(scrape: Option<Result>, rest: string)

  datatype Images = Images(poster: string, backdrop: string, logo: string)

  function TextAt(extra: map<string, Value>, key: string): string {
    if key in extra && extra[key].Str? then Text.Trim(extra[key].text) else ""
  }

  /** An image of the document, or else the one under `extra`. */
  function ImageOf(own: string, extra: map<string, Value>, key: string): string {
    if Text.Trim(own) != "" then Text.Trim(own) else TextAt(extra, key)
  }

  function ImagesOf(d: Document): Images {
    if d.scrape.None? then Images("", "", "")
    else
      var r := d.scrape.value;
      Images(ImageOf(r.poster, r.extra, "poster"), ImageOf(r.backdrop, r.extra, "backdrop"), ImageOf(r.logo, r.extra, "logo"))
  }

  function ExtraOf(d: Document): map<string, Value> {
    if d.scrape.None? then map[] else d.scrape.value.extra
  }

  function Chosen(own: string, existing: string): string {
    if Text.Trim(own) == "" && existing != "" then existing else own
  }

  /** The images of the document fill in for those the result lacks. */
  function Preserved(r: Result, d: Document): Result {
    var i := ImagesOf(d);
    r.(poster := Chosen(r.poster, i.poster), backdrop := Chosen(r.backdrop, i.backdrop), logo := Chosen(r.logo, i.logo),
       extra := if TextAt(r.extra, "poster") == "" && i.poster != "" then r.extra["poster" := Str(i.poster)] else r.extra)
  }

  /** What is committed: the entries under `extra` stay, unless the result has others. */
  function Committed(d: Document, r: Result): Result {
    var s := Preserved(r, d);
    s.(extra := ExtraOf(d) + s.extra)
  }

  function Merged(d: Document, r: Result): Document {
    d.(scrape := Some(Committed(d, r)))
  }

  /** The source's loops: the entries of the document first, those of the result over them. */
  method Prepare(d: Document, r: Result) returns (next: Document, c: Result)
    ensures next == Merged(d, r) && c == Committed(d, r)
  {
    var i := ImagesOf(d);
    c := r;
    if Text.Trim(c.poster) == "" && i.poster != "" {
      c := c.(poster := i.poster);
    }
    if Text.Trim(c.backdrop) == "" && i.backdrop != "" {
      c := c.(backdrop := i.backdrop);
    }
    if Text.Trim(c.logo) == "" && i.logo != "" {
      c := c.(logo := i.logo);
    }
    if TextAt(c.extra, "poster") == "" && i.poster != "" {
      c := c.(extra := c.extra["poster" := Str(i.poster)]);
    }
    assert c == Preserved(r, d);
    assert map[] + ExtraOf(d) == ExtraOf(d);
    var extra := Overlaid(map[], ExtraOf(d));
    extra := Overlaid(extra, c.extra);
    c := c.(extra := extra);
    next := d.(scrape := Some(c));
  }

  method Overlaid(below: map<string, Value>, above: map<string, Value>) returns (all: map<string, Value>)
    ensures all == below + above
  {
    all := below;
    var todo := above.Keys;
    while exists k :: k in todo
      invariant todo <= above.Keys
      invariant all.Keys == below.Keys + (above.Keys - todo)
      invariant forall k | k in all :: all[k] == if k in above && k !in todo then above[k] else below[k]
      decreases |todo|
    {
      var k :| k in todo;
      all := all[k := above[k]];
      todo := todo - {k};
    }
  }

  /** What is committed, field by field: the result, with the document's image where the result has none, and under `extra` the
      entries of both, those of the result first, and the document's poster where the result has none there. */
  lemma CommittedExact(d: Document, r: Result)
    ensures var i, c := ImagesOf(d), Committed(d, r);
      && Merged(d, r).rest == d.rest && Merged(d, r).scrape == Some(c) && c.rest == r.rest
      && c.poster == (if Text.Trim(r.poster) == "" && i.poster != "" then i.poster else r.poster)
      && c.backdrop == (if Text.Trim(r.backdrop) == "" && i.backdrop != "" then i.backdrop else r.backdrop)
      && c.logo == (if Text.Trim(r.logo) == "" && i.logo != "" then i.logo else r.logo)
      && var fills := i.poster != "" && ("poster" in r.extra && r.extra["poster"].Str? ==> Text.Trim(r.extra["poster"].text) == "");
         && (forall k :: k in c.extra <==> k in r.extra || (d.scrape.Some? && k in d.scrape.value.extra) || (k == "poster" && fills))
         && (fills ==> c.extra["poster"] == Str(i.poster))
         && (forall k | k in r.extra && !(k == "poster" && fills) :: c.extra[k] == r.extra[k])
         && (d.scrape.Some? ==>
               forall k | k in d.scrape.value.extra && k !in r.extra && !(k == "poster" && fills) :: c.extra[k] == d.scrape.value.extra[k])
  {
  }

  /** The images of a document: its own, trimmed, or else the texts of the same names under `extra`. */
  lemma ImagesExact(d: Document, r: Result)
    requires d.scrape == Some(r)
    ensures var i := ImagesOf(d);
      && i.poster == (if Text.Trim(r.poster) != "" then Text.Trim(r.poster)
                      else if "poster" in r.extra && r.extra["poster"].Str? then Text.Trim(r.extra["poster"].text) else "")
      && i.backdrop == (if Text.Trim(r.backdrop) != "" then Text.Trim(r.backdrop)
                        else if "backdrop" in r.extra && r.extra["backdrop"].Str? then Text.Trim(r.extra["backdrop"].text) else "")
      && i.logo == (if Text.Trim(r.logo) != "" then Text.Trim(r.logo)
                    else if "logo" in r.extra && r.extra["logo"].Str? then Text.Trim(r.extra["logo"].text) else "")
  {
  }

  // ---------- trimming ----------

  lemma {:induction false} TrimRightTwice(s: string)
    ensures Text.TrimRight(Text.TrimRight(s)) == Text.TrimRight(s)
    ensures Text.TrimRight(s) <= s
  {
    if s != "" && Text.IsSpace(s[|s| - 1]) {
      TrimRightTwice(s[..|s| - 1]);
    }
  }

  lemma {:induction false} TrimLeftTwice(s: string)
    ensures Text.TrimLeft(s) == "" || !Text.IsSpace(Text.TrimLeft(s)[0])
  {
    if s != "" && Text.IsSpace(s[0]) {
      TrimLeftTwice(s[1..]);
    }
  }

  lemma TrimTwice(s: string)
    ensures Text.Trim(Text.Trim(s)) == Text.Trim(s)
  {
    TrimLeftTwice(s);
    TrimRightTwice(Text.TrimLeft(s));
  }

  lemma ImagesTrimmed(d: Document)
    ensures var i := ImagesOf(d);
      Text.Trim(i.poster) == i.poster && Text.Trim(i.backdrop) == i.backdrop && Text.Trim(i.logo) == i.logo
  {
    if d.scrape.Some? {
      var r := d.scrape.value;
      TrimTwice(r.poster);
      TrimTwice(r.backdrop);
      TrimTwice(r.logo);
      forall key | key in r.extra && r.extra[key].Str? ensures Text.Trim(TextAt(r.extra, key)) == TextAt(r.extra, key) {
        TrimTwice(r.extra[key].text);
      }
    }
  }

  // ---------- merging again ----------

  /** Merging what was committed into the same document again changes nothing. */
  lemma CommittedAgain(d: Document, r: Result)
    ensures Committed(d, Committed(d, r)) == Committed(d, r)
  {
    ImagesTrimmed(d);
    var c := Committed(d, r);
    assert ExtraOf(d) + c.extra == c.extra;
  }

  /** The document's poster is what the result makes of it. */
  predicate PosterRepeats(poster: string, existing: string, under: string) {
    if Text.Trim(poster) == "" then existing != "" || under == ""
    else under != "" || existing == Text.Trim(poster)
  }

  predicate ImageRepeats(own: string, existing: string, under: string) {
    Text.Trim(own) != "" || existing != "" || under == ""
  }

  /** The result, merged into the document that it was merged into already, is committed in the same form. */
  predicate Repeats(d: Document, r: Result) {
    var i := ImagesOf(d);
    && PosterRepeats(r.poster, i.poster, TextAt(r.extra, "poster"))
    && ImageRepeats(r.backdrop, i.backdrop, TextAt(r.extra, "backdrop"))
    && ImageRepeats(r.logo, i.logo, TextAt(r.extra, "logo"))
  }

  /** One image, chosen and chosen again; `under` is what the result has under `extra`, `left` what the document then has. */
  lemma ChosenAgain(own: string, existing: string, under: string, left: string)
    requires Text.Trim(existing) == existing && Text.Trim(under) == under
    requires Text.Trim(own) == "" && existing == "" ==> left == under
    ensures var c := Chosen(own, existing); var again := if Text.Trim(c) != "" then Text.Trim(c) else left;
      Chosen(own, again) == c <==> ImageRepeats(own, existing, under)
  {
  }

  lemma TextTrimmed(extra: map<string, Value>, key: string)
    ensures Text.Trim(TextAt(extra, key)) == TextAt(extra, key)
  {
    if key in extra && extra[key].Str? {
      TrimTwice(extra[key].text);
    }
  }

  /** Where the document had no image, what it now has under `extra` is the result's. */
  lemma LeftUnder(d: Document, r: Result, key: string)
    requires ImagesOf(d).poster == "" || key != "poster"
    requires TextAt(ExtraOf(d), key) == ""
    ensures TextAt(Committed(d, r).extra, key) == TextAt(r.extra, key)
  {
  }

  lemma FieldsRepeat(d: Document, r: Result)
    ensures var c, c' := Committed(d, r), Committed(Merged(d, r), r); var i := ImagesOf(d);
      && (c'.poster == c.poster <==> ImageRepeats(r.poster, i.poster, TextAt(r.extra, "poster")))
      && (c'.backdrop == c.backdrop <==> ImageRepeats(r.backdrop, i.backdrop, TextAt(r.extra, "backdrop")))
      && (c'.logo == c.logo <==> ImageRepeats(r.logo, i.logo, TextAt(r.extra, "logo")))
  {
    ImagesTrimmed(d);
    var c, i := Committed(d, r), ImagesOf(d);
    if i.poster == "" {
      LeftUnder(d, r, "poster");
    }
    if i.backdrop == "" {
      LeftUnder(d, r, "backdrop");
    }
    if i.logo == "" {
      LeftUnder(d, r, "logo");
    }
    TextTrimmed(r.extra, "poster");
    TextTrimmed(r.extra, "backdrop");
    TextTrimmed(r.extra, "logo");
    ChosenAgain(r.poster, i.poster, TextAt(r.extra, "poster"), TextAt(c.extra, "poster"));
    ChosenAgain(r.backdrop, i.backdrop, TextAt(r.extra, "backdrop"), TextAt(c.extra, "backdrop"));
    ChosenAgain(r.logo, i.logo, TextAt(r.extra, "logo"), TextAt(c.extra, "logo"));
  }

  lemma ExtraSame(d: Document, r: Result)
    requires TextAt(r.extra, "poster") != "" || ImagesOf(Merged(d, r)).poster == ImagesOf(d).poster
    ensures Committed(Merged(d, r), r).extra == Committed(d, r).extra
  {
  }

  lemma ExtraDiffers(d: Document, r: Result)
    requires TextAt(r.extra, "poster") == "" && ImagesOf(Merged(d, r)).poster != ImagesOf(d).poster
    ensures Committed(Merged(d, r), r).extra != Committed(d, r).extra
  {
    ImagesTrimmed(d);
    ImagesTrimmed(Merged(d, r));
    assert TextAt(Committed(Merged(d, r), r).extra, "poster") != TextAt(Committed(d, r).extra, "poster");
  }

  /** Merging the same result a second time commits the same thing exactly if every image that the result has only under
      `extra` was in the document before, and the poster that is put under `extra` is the one the result itself brings. */
  lemma RepeatExact(d: Document, r: Result)
    ensures Committed(Merged(d, r), r) == Committed(d, r) <==> Repeats(d, r)
  {
    FieldsRepeat(d, r);
    ImagesTrimmed(d);
    if TextAt(r.extra, "poster") != "" || ImagesOf(Merged(d, r)).poster == ImagesOf(d).poster {
      ExtraSame(d, r);
    } else {
      ExtraDiffers(d, r);
    }
  }

  lemma UnderStays(d: Document, r: Result, key: string)
    requires TextAt(r.extra, key) != ""
    ensures TextAt(Committed(d, r).extra, key) == TextAt(r.extra, key)
  {
  }

  /** From the second time on it always does. */
  lemma SecondRepeats(d: Document, r: Result)
    ensures Repeats(Merged(d, r), r)
  {
    if TextAt(r.extra, "poster") != "" {
      UnderStays(d, r, "poster");
    }
    if TextAt(r.extra, "backdrop") != "" {
      UnderStays(d, r, "backdrop");
    }
    if TextAt(r.extra, "logo") != "" {
      UnderStays(d, r, "logo");
    }
  }

  // ---------- the same, on texts ----------

  datatype Json = Json(readDocument: string -> Document, writeDocument: Document -> string,
                       readResult: string -> Result, writeResult: Result -> string)

  /** Merging on texts is merging on what they stand for, and reading undoes writing. */
  ghost predicate Follows(merge: (string, string) -> Option<(string, string)>, j: Json) {
    && (forall d :: j.readDocument(j.writeDocument(d)) == d) && (forall r :: j.readResult(j.writeResult(r)) == r)
    && (forall d, r ::
          var doc, res := j.readDocument(d), j.readResult(r);
          merge(d, r) == Some((j.writeDocument(Merged(doc, res)), j.writeResult(Committed(doc, res)))))
  }
}
