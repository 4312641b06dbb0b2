/**
 * The two date conversions of the artist page. The calendar library calls they
 * rest on (parsing plus `toISOString`, and Angular's `DatePipe.transform` with
 * the format `yyyy-MM-dd`) are passed in as functions.
 */
module Dates {
  import opened ArtistDto
  import Text

  /** `toIsoString(d).split('T')[0]`: the date part of an ISO-8601 timestamp. */
  function IsoDatePart(d: string, toIsoString: string -> string): (r: string)
    ensures 'T' !in r
    ensures r <= toIsoString(d)
    ensures |r| < |toIsoString(d)| ==> toIsoString(d)[|r|] == 'T'
  {
    var pieces := Text.Split(toIsoString(d), 'T');
    PieceIsPrefix(pieces, 'T');
    pieces[0]
  }

  /** The first piece of a join is a prefix of the joined text. */
  lemma PieceIsPrefix(pieces: seq<string>, sep: char)
    requires |pieces| >= 1
    ensures pieces[0] <= Text.Join(pieces, sep)
  {
  }

  /**
   * A timestamp `x` + `T` + time (no `T` in `x`) yields `x`, whatever format `d`
   * itself was in; in particular a date-only `d` whose timestamp starts with it
   * yields `d` back.
   */
  lemma IsoDateRoundTrip(d: string, x: string, time: string, toIsoString: string -> string)
    requires 'T' !in x
    requires toIsoString(d) == x + "T" + time
    ensures IsoDatePart(d, toIsoString) == x
  {
    Text.SplitAfterPiece(x, 'T', time);
  }

  /** What `loadArtists` stores for one fetched record: an empty date stays empty, any other becomes its ISO date part. */
  function NormaliseCareerStart(a: Artist, toIsoString: string -> string): (r: Artist)
    ensures r.(careerStartDate := a.careerStartDate) == a
    ensures a.careerStartDate == "" ==> r.careerStartDate == ""
    ensures a.careerStartDate != "" ==> 'T' !in r.careerStartDate
    ensures a.careerStartDate != "" ==> r.careerStartDate == IsoDatePart(a.careerStartDate, toIsoString)
  {
    a.(careerStartDate := if a.careerStartDate != "" then IsoDatePart(a.careerStartDate, toIsoString) else "")
  }

  /** The whole fetched list, normalised record by record. */
  function NormaliseAll(fetched: seq<Artist>, toIsoString: string -> string): (r: seq<Artist>)
    ensures |r| == |fetched|
    ensures forall i :: 0 <= i < |r| ==> r[i].(careerStartDate := fetched[i].careerStartDate) == fetched[i]
    ensures forall i :: 0 <= i < |r| ==>
      r[i].careerStartDate == if fetched[i].careerStartDate == "" then "" else IsoDatePart(fetched[i].careerStartDate, toIsoString)
  {
    seq(|fetched|, i requires 0 <= i < |fetched| => NormaliseCareerStart(fetched[i], toIsoString))
  }

  /** `transform(d, 'yyyy-MM-dd') || ''`: a failed (null) transformation becomes the empty string. */
  function PipeDate(d: string, transform: string -> Option<string>): (r: string)
    ensures transform(d).None? ==> r == ""
    ensures transform(d).Some? ==> r == transform(d).value
  {
    match transform(d)
    case Some(s) => s
    case None => ""
  }
}
