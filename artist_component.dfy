/**
 * The artist page component: the collection it mirrors from the backend, the
 * page of it on show, and the draft in the editor.
 *
 * Each backend call is a parameter holding its outcome, and each library or
 * browser call (date conversion, the chosen image files, the confirmation
 * dialog, form validity) is a parameter holding its answer.
 */
module ArtistPage {
  import opened ArtistDto
  import opened Pagination
  import opened Dates
  import opened FormEncoding

  /** The outcome of one backend call: its value, or the error's message ("" when it carries none). */
  datatype CallResult<T> = Success(value: T) | Failure(message: string)

  const LoadErrorMessage := "Error loading artists"
  const SaveFailedMessage := "Failed to create/update artist."
  const CreatedMessage := "Artist created successfully!"
  const UpdatedMessage := "Artist updated successfully!"
  const DeletedMessage := "Artist deleted successfully!"
  const DeleteFailedMessage := "Failed to delete artist."

  class ArtistComponent {
    var artists: seq<Artist>
    var pagedArtists: seq<Artist>
    var selectedArtist: Artist
    var validationErrors: map<string, string>
    var generalError: string
    var isCreating: bool
    var alertMessage: string
    var showAlert: bool
    var currentPage: int
    var itemsPerPage: nat
    var totalItems: nat
    var totalPages: nat
    var pages: seq<int>

    /**
     * The pagination fields agree with the collection: the count is its length,
     * the page count is the ceiling, the page numbers run 1..totalPages, and the
     * page on show is the slice of the current page.
     */
    ghost predicate Valid()
      reads this`itemsPerPage, this`currentPage, this`artists, this`totalItems, this`totalPages,
            this`pages, this`pagedArtists
    {
      itemsPerPage > 0 && currentPage >= 1 && totalItems == |artists|
      && totalPages == CeilDiv(totalItems, itemsPerPage)
      && pages == PageNumbers(totalPages)
      && pagedArtists == PageSlice(artists, currentPage, itemsPerPage, totalItems)
    }

    constructor ()
      ensures Valid()
      ensures artists == [] && pagedArtists == [] && pages == []
      ensures selectedArtist == BlankArtist()
      ensures validationErrors == map[] && generalError == "" && !isCreating
      ensures alertMessage == "" && !showAlert
      ensures currentPage == 1 && itemsPerPage == 5 && totalItems == 0 && totalPages == 0
    {
      artists := [];
      pagedArtists := [];
      selectedArtist := BlankArtist();
      validationErrors := map[];
      generalError := "";
      isCreating := false;
      alertMessage := "";
      showAlert := false;
      currentPage := 1;
      itemsPerPage := 5;
      totalItems := 0;
      totalPages := 0;
      pages := [];
    }

    /** The success branch of the list request replaces the collection and recomputes the pages; the failure branch only raises the alert. */
    method LoadArtists(response: CallResult<seq<Artist>>, toIsoString: string -> string)
      requires Valid()
      modifies this`artists, this`totalItems, this`totalPages, this`pages, this`pagedArtists,
               this`alertMessage, this`showAlert
      ensures Valid()
      ensures currentPage == old(currentPage)
      ensures response.Success? ==>
        artists == NormaliseAll(response.value, toIsoString) && totalItems == |response.value|
        && alertMessage == old(alertMessage) && showAlert == old(showAlert)
      ensures response.Failure? ==>
        artists == old(artists) && totalItems == old(totalItems) && totalPages == old(totalPages)
        && pages == old(pages) && pagedArtists == old(pagedArtists)
        && alertMessage == LoadErrorMessage && showAlert
    {
      match response
      case Success(fetched) =>
        artists := NormaliseAll(fetched, toIsoString);
        totalItems := |artists|;
        CalculateTotalPages();
        PaginateArtists();
      case Failure(_) =>
        ShowAlertMessage(LoadErrorMessage, true);
    }

    /** Recomputes the page count and rebuilds the page numbers with the push loop. */
    method CalculateTotalPages()
      requires itemsPerPage > 0
      modifies this`totalPages, this`pages
      ensures totalPages == CeilDiv(totalItems, itemsPerPage)
      ensures pages == PageNumbers(totalPages)
    {
      totalPages := (totalItems + itemsPerPage - 1) / itemsPerPage;
      pages := [];
      for i := 1 to totalPages + 1
        invariant totalPages == CeilDiv(totalItems, itemsPerPage)
        invariant pages == PageNumbers(i - 1)
      {
        pages := pages + [i];
      }
    }

    /** Takes the current page's slice out of the collection. */
    method PaginateArtists()
      modifies this`pagedArtists
      ensures pagedArtists == PageSlice(artists, currentPage, itemsPerPage, totalItems)
    {
      var startIndex := (currentPage - 1) * itemsPerPage;
      var endIndex := Min(startIndex + itemsPerPage - 1, totalItems - 1);
      pagedArtists := JsSlice(artists, startIndex, endIndex + 1);
    }

    /** Moves to `page` when it is a page that exists; any other page is silently ignored. */
    method ChangePage(page: int)
      requires Valid()
      modifies this`currentPage, this`pagedArtists
      ensures Valid()
      ensures 1 <= page <= totalPages ==> currentPage == page
      ensures !(1 <= page <= totalPages) ==> currentPage == old(currentPage) && pagedArtists == old(pagedArtists)
    {
      if page >= 1 && page <= totalPages {
        currentPage := page;
        PaginateArtists();
      }
    }

    /** The page before the current one, never below 1. */
    function PreviousPage(): (p: int)
      reads this`currentPage, this`totalPages
      ensures p >= 1 && p >= currentPage - 1
      ensures p == 1 || p == currentPage - 1
      ensures 1 <= currentPage <= totalPages ==> 1 <= p <= totalPages
    {
      Max(1, currentPage - 1)
    }

    /** The page after the current one, never beyond the last page. */
    function NextPage(): (p: int)
      reads this`currentPage, this`totalPages
      ensures p <= totalPages && p <= currentPage + 1
      ensures p == totalPages || p == currentPage + 1
      ensures 1 <= currentPage <= totalPages ==> 1 <= p <= totalPages
    {
      Min(totalPages, currentPage + 1)
    }

    /** Opens the editor on a blank draft and clears the errors of an earlier attempt. */
    method OpenCreateArtistForm()
      modifies this`selectedArtist, this`isCreating, this`validationErrors, this`generalError
      ensures selectedArtist.id == None && selectedArtist.rating == Some(0.0)
      ensures selectedArtist.artistImage == selectedArtist.artistName == selectedArtist.stageName == ""
      ensures selectedArtist.recordLabel == selectedArtist.publishingHouse == selectedArtist.careerStartDate == ""
      ensures selectedArtist.numberOfAlbums == 0 && selectedArtist.socialMediaLinks == []
      ensures isCreating && validationErrors == map[] && generalError == ""
    {
      selectedArtist := BlankArtist();
      isCreating := true;
      validationErrors := map[];
      generalError := "";
    }

    /** Closes the editor, keeping the draft. */
    method CloseCreateArtistForm()
      modifies this`isCreating
      ensures !isCreating
    {
      isCreating := false;
    }

    /** Opens the editor on a copy of `artist`, its career start date through the date pipe. */
    method EditArtist(artist: Artist, transform: string -> Option<string>)
      modifies this`selectedArtist, this`isCreating
      ensures selectedArtist.(careerStartDate := artist.careerStartDate) == artist
      ensures selectedArtist.careerStartDate
        == if artist.careerStartDate != "" then PipeDate(artist.careerStartDate, transform) else ""
      ensures isCreating
    {
      selectedArtist := artist.(careerStartDate :=
        if artist.careerStartDate != "" then PipeDate(artist.careerStartDate, transform) else "");
      isCreating := true;
    }

    /** Shows a copy of `artist`; the editor's open flag is left as it was. */
    method ViewArtist(artist: Artist)
      modifies this`selectedArtist
      ensures selectedArtist == artist
    {
      selectedArtist := artist;
    }

    /**
     * Submits the draft. An invalid form sends nothing and changes nothing.
     * Otherwise the rating is defaulted, the request of `Submission` is sent,
     * and its outcome is handled as `SaveResponded` describes; the editor stays
     * open on the draft when the request fails.
     */
    method CreateOrUpdateArtist(formInvalid: bool, chosenFiles: seq<ImageFile>, transform: string -> Option<string>,
                                response: CallResult<()>, reload: CallResult<seq<Artist>>, toIsoString: string -> string)
      returns (request: Option<Request>)
      requires Valid()
      modifies this`selectedArtist, this`generalError, this`isCreating, this`alertMessage, this`showAlert,
               this`artists, this`totalItems, this`totalPages, this`pages, this`pagedArtists
      ensures Valid()
      ensures request == Submission(formInvalid, old(selectedArtist), chosenFiles, transform)
      ensures formInvalid ==> unchanged(this)
      ensures !formInvalid ==> selectedArtist == DefaultRating(old(selectedArtist))
      ensures !formInvalid && response.Failure? ==>
        && generalError == (if !HasId(old(selectedArtist)) && response.message != "" then response.message else SaveFailedMessage)
        && alertMessage == generalError && showAlert
        && isCreating == old(isCreating)
        && artists == old(artists) && totalItems == old(totalItems) && pagedArtists == old(pagedArtists)
      ensures !formInvalid && response.Success? ==>
        && !isCreating && generalError == old(generalError) && showAlert
        && (reload.Success? ==>
              artists == NormaliseAll(reload.value, toIsoString)
              && alertMessage == (if HasId(old(selectedArtist)) then UpdatedMessage else CreatedMessage))
        && (reload.Failure? ==> artists == old(artists) && alertMessage == LoadErrorMessage)
    {
      if formInvalid {
        return None;
      }
      var sent := SendDraft(chosenFiles, transform);
      request := Some(sent);
      SaveResponded(response, HasId(selectedArtist), reload, toIsoString);
    }

    /**
     * The synchronous part of a valid submission: default the rating, encode the
     * draft and route it to an update or a create.
     */
    method SendDraft(chosenFiles: seq<ImageFile>, transform: string -> Option<string>) returns (sent: Request)
      modifies this`selectedArtist
      ensures selectedArtist == DefaultRating(old(selectedArtist))
      ensures Some(sent) == Submission(false, old(selectedArtist), chosenFiles, transform)
    {
      if selectedArtist.rating.None? {
        selectedArtist := selectedArtist.(rating := Some(0.0));
      }
      var formData := BuildFormData(selectedArtist, DraftKeys(selectedArtist), chosenFiles, transform);
      sent := if HasId(selectedArtist) then UpdateRequest(selectedArtist.id.value, formData)
              else CreateRequest(formData);
    }

    /**
     * The two callbacks of the create or update request. On failure the
     * general error and the alert are the backend's message for a create, or a
     * fixed one when there is none; an update's error is read as text, so it
     * always gets the fixed one. On success the alert reports the create or update, the editor
     * closes, and the list request's outcome `reload` is applied.
     */
    method SaveResponded(response: CallResult<()>, updated: bool, reload: CallResult<seq<Artist>>,
                         toIsoString: string -> string)
      requires Valid()
      modifies this`generalError, this`isCreating, this`alertMessage, this`showAlert,
               this`artists, this`totalItems, this`totalPages, this`pages, this`pagedArtists
      ensures Valid()
      ensures response.Failure? ==>
        && generalError == (if !updated && response.message != "" then response.message else SaveFailedMessage)
        && alertMessage == generalError && showAlert
        && isCreating == old(isCreating)
        && artists == old(artists) && totalItems == old(totalItems) && pagedArtists == old(pagedArtists)
      ensures response.Success? ==>
        && !isCreating && generalError == old(generalError) && showAlert
        && (reload.Success? ==>
              artists == NormaliseAll(reload.value, toIsoString)
              && alertMessage == (if updated then UpdatedMessage else CreatedMessage))
        && (reload.Failure? ==> artists == old(artists) && alertMessage == LoadErrorMessage)
    {
      match response
      case Success(_) =>
        ShowAlertMessage(if updated then UpdatedMessage else CreatedMessage, false);
        CloseCreateArtistForm();
        LoadArtists(reload, toIsoString);
      case Failure(message) =>
        // An update's error body is plain text, which has no `message`.
        generalError := if !updated && message != "" then message else SaveFailedMessage;
        ShowAlertMessage(generalError, true);
    }

    /**
     * Deletes after confirmation only: a declined dialog sends nothing and
     * changes nothing. A confirmed one sends the delete for `id`; on success the
     * alert reports it and the list request's outcome `reload` is applied, on
     * failure only the alert is raised.
     */
    method DeleteArtist(id: string, confirmed: bool, response: CallResult<()>,
                        reload: CallResult<seq<Artist>>, toIsoString: string -> string)
      returns (deleteSent: Option<string>)
      requires Valid()
      modifies this`artists, this`totalItems, this`totalPages, this`pages, this`pagedArtists,
               this`alertMessage, this`showAlert
      ensures Valid()
      ensures deleteSent == if confirmed then Some(id) else None
      ensures !confirmed ==> unchanged(this)
      ensures confirmed && response.Failure? ==>
        artists == old(artists) && pagedArtists == old(pagedArtists)
        && alertMessage == DeleteFailedMessage && showAlert
      ensures confirmed && response.Success? ==>
        && showAlert
        && (reload.Success? ==> artists == NormaliseAll(reload.value, toIsoString) && alertMessage == DeletedMessage)
        && (reload.Failure? ==> artists == old(artists) && alertMessage == LoadErrorMessage)
    {
      if !confirmed {
        return None;
      }
      deleteSent := Some(id);
      match response
      case Success(_) =>
        ShowAlertMessage(DeletedMessage, false);
        LoadArtists(reload, toIsoString);
      case Failure(_) =>
        ShowAlertMessage(DeleteFailedMessage, true);
    }

    /** Raises the alert banner with `message` (the timer that later lowers it is outside the model). */
    method ShowAlertMessage(message: string, isError: bool)
      modifies this`alertMessage, this`showAlert
      ensures alertMessage == message && showAlert
    {
      alertMessage := message;
      showAlert := true;
    }
  }

  /**
   * Twelve artists with five per page: the page numbers are 1, 2, 3; the
   * previous page of page 1 is 1; on page 3 the slice holds the last two
   * artists and the next page is still 3; an attempt to move to page 4 is ignored.
   */
  method TwelveArtistsScenario(fetched: seq<Artist>, toIsoString: string -> string)
    returns (pages: seq<int>, previousOfFirst: int, lastPage: seq<Artist>, nextOfLast: int, afterPageFour: int)
    requires |fetched| == 12
    ensures pages == [1, 2, 3]
    ensures previousOfFirst == 1
    ensures |lastPage| == 2 && lastPage == NormaliseAll(fetched, toIsoString)[10..]
    ensures nextOfLast == 3
    ensures afterPageFour == 3
  {
    var page := new ArtistComponent();
    page.LoadArtists(Success(fetched), toIsoString);
    assert page.totalPages == 3;
    pages := page.pages;
    assert pages == [1, 2, 3];
    previousOfFirst := page.PreviousPage();
    page.ChangePage(3);
    lastPage := page.pagedArtists;
    PageSliceIsRange(page.artists, 3, 5);
    nextOfLast := page.NextPage();
    page.ChangePage(4);
    afterPageFour := page.currentPage;
  }
}
