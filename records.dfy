/** The catalogue record (`MangaModel`), the decoded catalogue item (`MangaDTO`) and the
    small computed properties defined on them. */
module Records {
  import opened Common

  /** Foundation's `Date`. Only whether a date is present matters to the code modelled here;
      how a present date is rendered is left to an abstract formatter. */
  datatype Date = Date(secondsSinceReferenceDate: int)

  datatype Genre = Genre(id: string, genre: string)
  datatype Theme = Theme(id: string, theme: string)
  datatype Demographic = Demographic(id: string, demographic: string)
  datatype Author = Author(id: string, role: string, firstName: string, lastName: string)

  /** A catalogue item as decoded from the catalogue service. `score` is a Swift `Double`;
      here it is only carried from one record to another. */
  datatype MangaDTO = MangaDTO(
    score: real, sypnosis: Option<string>, demographics: seq<Demographic>, status: string,
    background: Option<string>, startDate: Option<Date>, url: string, endDate: Option<Date>,
    id: int, genres: seq<Genre>, titleEnglish: Option<string>, title: string,
    mainPicture: string, authors: seq<Author>, chapters: Option<int>, volumes: Option<int>,
    titleJapanese: Option<string>, themes: seq<Theme>)

  /** The record kept in the lists: the catalogue fields (constant, `let` in Swift) followed by
      the three progress fields that the progress-tracking screens update (`var` in Swift). */
  datatype Manga = Manga(
    score: real, sypnosis: Option<string>, demographics: seq<Demographic>, status: string,
    background: Option<string>, startDate: Option<Date>, url: string, endDate: Option<Date>,
    id: int, genres: seq<Genre>, titleEnglish: Option<string>, title: string,
    mainPicture: string, authors: seq<Author>, chapters: Option<int>, volumes: Option<int>,
    titleJapanese: Option<string>, themes: seq<Theme>,
    boughtVolumes: seq<int>, readingVolume: int, isCompleted: bool)

  /** The catalogue part of a record: every field except the three progress fields. */
  function Catalogue(m: Manga): MangaDTO
  {
    MangaDTO(m.score, m.sypnosis, m.demographics, m.status, m.background, m.startDate, m.url,
             m.endDate, m.id, m.genres, m.titleEnglish, m.title, m.mainPicture, m.authors,
             m.chapters, m.volumes, m.titleJapanese, m.themes)
  }

  /** Two records agree on every field that Swift declares with `let`. */
  predicate SameCatalogue(a: Manga, b: Manga)
  {
    Catalogue(a) == Catalogue(b)
  }

  /** `MangaDTO.mapToModel`: copies every catalogue field and starts the progress fields at
      "nothing bought, nothing read, not completed". */
  function MapToModel(d: MangaDTO): (m: Manga)
    ensures Catalogue(m) == d
    ensures m.boughtVolumes == [] && m.readingVolume == 0 && !m.isCompleted
  {
    Manga(d.score, d.sypnosis, d.demographics, d.status, d.background, d.startDate, d.url,
          d.endDate, d.id, d.genres, d.titleEnglish, d.title, d.mainPicture, d.authors,
          d.chapters, d.volumes, d.titleJapanese, d.themes, [], 0, false)
  }

  /** Mapping is the inverse of taking the catalogue part, up to the progress fields: a record
      is its own catalogue part, mapped, with its progress put back. */
  lemma MapToModelOfCatalogue(m: Manga)
    ensures MapToModel(Catalogue(m)).(boughtVolumes := m.boughtVolumes,
                                      readingVolume := m.readingVolume,
                                      isCompleted := m.isCompleted) == m
    ensures SameCatalogue(MapToModel(Catalogue(m)), m)
  {
  }

  /** Updating only progress fields never changes the catalogue part (the `let` fields). */
  lemma ProgressUpdateKeepsCatalogue(m: Manga, bought: seq<int>, reading: int, completed: bool)
    ensures SameCatalogue(m.(boughtVolumes := bought, readingVolume := reading,
                             isCompleted := completed), m)
  {
  }

  /** `Author.authorCompleteName`. */
  function AuthorCompleteName(a: Author): (r: string)
    ensures |r| == |a.firstName| + |a.lastName| + 1
    ensures r[..|a.firstName|] == a.firstName
    ensures r[|a.firstName|] == ' '
    ensures r[|a.firstName| + 1..] == a.lastName
  {
    a.firstName + " " + a.lastName
  }

  /** `formattedStartDate`: the formatted date, or a fixed label when there is none. */
  function FormattedStartDate(m: Manga, format: Date -> string): (r: string)
    ensures m.startDate.None? ==> r == "No Date Registered"
    ensures m.startDate.Some? ==> r == format(m.startDate.value)
  {
    match m.startDate
    case None => "No Date Registered"
    case Some(d) => format(d)
  }

  /** `formattedEndDate`: the formatted date, or "Currently Active" for a running series. */
  function FormattedEndDate(m: Manga, format: Date -> string): (r: string)
    ensures m.endDate.None? ==> r == "Currently Active"
    ensures m.endDate.Some? ==> r == format(m.endDate.value)
  {
    match m.endDate
    case None => "Currently Active"
    case Some(d) => format(d)
  }

  // ---------------------------------------------------------------------------------------
  // Quote trimming: `trimmingCharacters(in: CharacterSet(charactersIn: "\""))`

  /** Every character of `s` is a double quote. */
  predicate AllQuotes(s: string)
  {
    forall i :: 0 <= i < |s| ==> s[i] == '"'
  }

  /** The first position at or after `i` that does not hold a double quote (`|s|` if there
      is none): the end of the leading quotes. */
  function SkipLeadingQuotes(s: string, i: nat): (k: nat)
    requires i <= |s|
    ensures i <= k <= |s|
    ensures forall j :: i <= j < k ==> s[j] == '"'
    ensures k == |s| || s[k] != '"'
    decreases |s| - i
  {
    if i < |s| && s[i] == '"' then SkipLeadingQuotes(s, i + 1) else i
  }

  /** Moves the end `e` of `s[lo..e]` back over the double quotes before it: the start of
      the trailing quotes. */
  function SkipTrailingQuotes(s: string, lo: nat, e: nat): (k: nat)
    requires lo <= e <= |s|
    ensures lo <= k <= e
    ensures forall j :: k <= j < e ==> s[j] == '"'
    ensures k == lo || s[k - 1] != '"'
  {
    if lo < e && s[e - 1] == '"' then SkipTrailingQuotes(s, lo, e - 1) else e
  }

  /** Removes all leading and trailing double quotes, keeping the interior unchanged. */
  function TrimQuotes(s: string): (r: string)
    ensures |r| <= |s|
    ensures r == [] || (r[0] != '"' && r[|r| - 1] != '"')
  {
    var k := SkipLeadingQuotes(s, 0);
    s[k..SkipTrailingQuotes(s, k, |s|)]
  }

  /** The trimmed string is a slice `s[k..k + |r|]` of the original, everything around that
      slice is quotes, and the slice neither starts nor ends with a quote. */
  lemma TrimQuotesShape(s: string)
    ensures var r, k := TrimQuotes(s), SkipLeadingQuotes(s, 0);
      && k + |r| <= |s|
      && r == s[k..k + |r|]
      && AllQuotes(s[..k]) && AllQuotes(s[k + |r|..])
      && (r == [] || (r[0] != '"' && r[|r| - 1] != '"'))
  {
    var k := SkipLeadingQuotes(s, 0);
    var e := SkipTrailingQuotes(s, k, |s|);
    assert AllQuotes(s[..k]) by {
      forall j | 0 <= j < k ensures s[..k][j] == '"' {
        assert s[..k][j] == s[j];
      }
    }
    assert AllQuotes(s[e..]) by {
      forall j | 0 <= j < |s| - e ensures s[e..][j] == '"' {
        assert s[e..][j] == s[e + j];
      }
    }
  }

  /** Trimming an already trimmed string changes nothing. */
  lemma TrimQuotesIdempotent(s: string)
    ensures TrimQuotes(TrimQuotes(s)) == TrimQuotes(s)
  {
    var r := TrimQuotes(s);
    TrimQuotesShape(s);
    TrimQuotesUnquoted(r);
  }

  /** A string that neither starts nor ends with a quote is left unchanged. */
  lemma TrimQuotesUnquoted(s: string)
    requires s == [] || (s[0] != '"' && s[|s| - 1] != '"')
    ensures TrimQuotes(s) == s
  {
  }

  /** The string behind `mainPictureURL`. Building the Foundation `URL` from it (and its
      force-unwrap) is not part of this model. */
  function MainPictureURLString(m: Manga): (r: string)
    ensures r == [] || (r[0] != '"' && r[|r| - 1] != '"')
    ensures TrimQuotes(r) == r
  {
    var r := TrimQuotes(m.mainPicture);
    TrimQuotesUnquoted(r);
    r
  }

  /** The string behind `validURL`. */
  function ValidURLString(m: Manga): (r: string)
    ensures r == [] || (r[0] != '"' && r[|r| - 1] != '"')
    ensures TrimQuotes(r) == r
  {
    var r := TrimQuotes(m.url);
    TrimQuotesUnquoted(r);
    r
  }

  // ---------------------------------------------------------------------------------------
  // `formatMangaDetails` (identical in the explore detail and the collection detail screens)

  function DigitChar(d: int): char
    requires 0 <= d < 10
  {
    "0123456789"[d]
  }

  /** Decimal rendering of a natural number, as string interpolation writes it. */
  function NatString(n: nat): (r: string)
    ensures |r| > 0
  {
    if n < 10 then [DigitChar(n)] else NatString(n / 10) + [DigitChar(n % 10)]
  }

  /** Decimal rendering of an `Int` (a leading minus sign for negative values). */
  function IntString(n: int): (r: string)
    ensures |r| > 0
  {
    if n < 0 then "-" + NatString(-n) else NatString(n)
  }

  const Bullet: string := " \U{2022} "

  function DatesPart(m: Manga, format: Date -> string): string
  {
    FormattedStartDate(m, format) + "-" + FormattedEndDate(m, format)
  }

  function VolumesPart(m: Manga): string
  {
    match m.volumes
    case None => ""
    case Some(n) => Bullet + IntString(n) + " volumes"
  }

  function GenrePart(m: Manga): string
  {
    if |m.genres| > 0 && m.genres[0].genre != "" then Bullet + m.genres[0].genre else ""
  }

  function ThemePart(m: Manga): string
  {
    if |m.themes| > 0 && m.themes[0].theme != "" then ", " + m.themes[0].theme else ""
  }

  function DemographicPart(m: Manga): string
  {
    if |m.demographics| > 0 && m.demographics[0].demographic != ""
    then ", " + m.demographics[0].demographic
    else ""
  }

  /** `formatMangaDetails`: the date range, then the optional volume count, then the first
      genre, theme and demographic, each only when present and non-empty. */
  function MangaDetails(m: Manga, format: Date -> string): string
  {
    DatesPart(m, format) + VolumesPart(m) + GenrePart(m) + ThemePart(m) + DemographicPart(m)
  }

  /** The details always start with "start-end". */
  lemma MangaDetailsStartWithDates(m: Manga, format: Date -> string)
    ensures var d, r := DatesPart(m, format), MangaDetails(m, format);
      |d| <= |r| && r[..|d|] == d
  {
  }

  /** Without a volume count and without non-empty first tags, the details are exactly the
      date range. */
  lemma MangaDetailsDatesOnly(m: Manga, format: Date -> string)
    requires m.volumes.None?
    requires |m.genres| == 0 || m.genres[0].genre == ""
    requires |m.themes| == 0 || m.themes[0].theme == ""
    requires |m.demographics| == 0 || m.demographics[0].demographic == ""
    ensures MangaDetails(m, format) == FormattedStartDate(m, format) + "-" + FormattedEndDate(m, format)
  {
  }

  /** A known volume count comes right after the date range, as " • N volumes". */
  lemma MangaDetailsVolumes(m: Manga, format: Date -> string, n: int)
    requires m.volumes == Some(n)
    ensures var d, v, r := DatesPart(m, format), Bullet + IntString(n) + " volumes", MangaDetails(m, format);
      |d| + |v| <= |r| && r[|d|..|d| + |v|] == v
  {
    var d, v := DatesPart(m, format), Bullet + IntString(n) + " volumes";
    var dv := d + v;
    var r := MangaDetails(m, format);
    assert r == dv + GenrePart(m) + ThemePart(m) + DemographicPart(m);
    PrefixOfAppend(dv + GenrePart(m) + ThemePart(m), DemographicPart(m));
    PrefixOfAppend(dv + GenrePart(m), ThemePart(m));
    PrefixOfAppend(dv, GenrePart(m));
    assert r[..|dv|] == dv;
    assert dv[|d|..] == v;
  }

  /** Without a volume count no volumes segment appears: the tags follow the dates directly. */
  lemma MangaDetailsNoVolumes(m: Manga, format: Date -> string)
    requires m.volumes.None?
    ensures MangaDetails(m, format)
         == DatesPart(m, format) + GenrePart(m) + ThemePart(m) + DemographicPart(m)
  {
    assert DatesPart(m, format) + VolumesPart(m) == DatesPart(m, format);
  }

  /** A non-empty first genre `g` comes right after the dates and the volumes segment, as
      " • g". */
  lemma MangaDetailsGenre(m: Manga, format: Date -> string, g: string)
    requires |m.genres| > 0 && m.genres[0].genre == g && g != ""
    ensures var p, r := DatesPart(m, format) + VolumesPart(m), MangaDetails(m, format);
      |p| + |Bullet + g| <= |r| && r[|p|..|p| + |Bullet + g|] == Bullet + g
  {
    var p := DatesPart(m, format) + VolumesPart(m);
    var pg := p + (Bullet + g);
    assert GenrePart(m) == Bullet + g;
    assert MangaDetails(m, format) == pg + ThemePart(m) + DemographicPart(m);
    PrefixOfAppend(pg + ThemePart(m), DemographicPart(m));
    PrefixOfAppend(pg, ThemePart(m));
    assert pg[|p|..] == Bullet + g;
  }

  /** A non-empty first theme `t` comes right after the genre segment, as ", t". */
  lemma MangaDetailsTheme(m: Manga, format: Date -> string, t: string)
    requires |m.themes| > 0 && m.themes[0].theme == t && t != ""
    ensures var p, r := DatesPart(m, format) + VolumesPart(m) + GenrePart(m), MangaDetails(m, format);
      |p| + |", " + t| <= |r| && r[|p|..|p| + |", " + t|] == ", " + t
  {
    var p := DatesPart(m, format) + VolumesPart(m) + GenrePart(m);
    var pt := p + (", " + t);
    assert ThemePart(m) == ", " + t;
    assert MangaDetails(m, format) == pt + DemographicPart(m);
    PrefixOfAppend(pt, DemographicPart(m));
    assert pt[|p|..] == ", " + t;
  }

  /** A non-empty first demographic `d` ends the line, as ", d". */
  lemma MangaDetailsDemographic(m: Manga, format: Date -> string, d: string)
    requires |m.demographics| > 0 && m.demographics[0].demographic == d && d != ""
    ensures var r := MangaDetails(m, format);
      |", " + d| <= |r| && r[|r| - |", " + d|..] == ", " + d
  {
    var p := DatesPart(m, format) + VolumesPart(m) + GenrePart(m) + ThemePart(m);
    assert DemographicPart(m) == ", " + d;
    assert MangaDetails(m, format) == p + (", " + d);
  }

  /** With all three first tags present and non-empty and no volume count, the line is the
      dates followed by " • genre, theme, demographic". */
  lemma MangaDetailsAllTags(m: Manga, format: Date -> string, g: string, t: string, d: string)
    requires m.volumes.None?
    requires |m.genres| > 0 && m.genres[0].genre == g && g != ""
    requires |m.themes| > 0 && m.themes[0].theme == t && t != ""
    requires |m.demographics| > 0 && m.demographics[0].demographic == d && d != ""
    ensures MangaDetails(m, format) == DatesPart(m, format) + (Bullet + g) + (", " + t) + (", " + d)
  {
    assert DatesPart(m, format) + VolumesPart(m) == DatesPart(m, format);
  }

  lemma PrefixOfAppend(a: string, b: string)
    ensures (a + b)[..|a|] == a
  {
  }

  /** Changing only progress fields never changes the details line. */
  lemma MangaDetailsIgnoreProgress(m: Manga, format: Date -> string, bought: seq<int>, reading: int, completed: bool)
    ensures MangaDetails(m.(boughtVolumes := bought, readingVolume := reading, isCompleted := completed), format)
         == MangaDetails(m, format)
  {
  }
}
