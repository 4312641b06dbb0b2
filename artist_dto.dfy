/** The artist record exchanged with the backend (the `ArtistDto` interface). */
module ArtistDto {

  datatype Option<+T> = None | Some(value: T)

  /**
   * One artist. `id` is absent for a record the backend has not stored yet.
   * `rating` is absent when the backend's JSON leaves it out. `socialMediaLinks`
   * is always a list of links here.
   */
  datatype Artist = Artist(
    id: Option<string>,
    artistImage: string,
    artistName: string,
    stageName: string,
    numberOfAlbums: int,
    socialMediaLinks: seq<string>,
    recordLabel: string,
    publishingHouse: string,
    careerStartDate: string,
    rating: Option<real>)

  /** The blank draft: empty texts, no albums, no links, rating 0 and no id. */
  function BlankArtist(): (r: Artist)
    ensures !HasId(r)
    ensures r.rating == Some(0.0) && r.numberOfAlbums == 0 && r.socialMediaLinks == []
  {
    Artist(None, "", "", "", 0, [], "", "", "", Some(0.0))
  }

  /** JavaScript truthiness of `id`: present and not the empty string. */
  predicate HasId(a: Artist): (r: bool)
    ensures r ==> a.id.Some?
    ensures a.id == Some("") ==> !r
  {
    a.id.Some? && a.id.value != ""
  }
}
