/**
 * The `Characters` page: its four pieces of component state, the outcome of
 * the one fetch issued at mount, the "load more" request, and what the page
 * shows for a given state (loading text, error text, the character grid, or
 * nothing). The network call is an input: an outcome that either resolves
 * with the full list or rejects with a thrown value.
 */
module Characters {
  import opened Window

  datatype Option<T> = None | Some(value: T)

  /** A character as fetched; an empty `image` or `house` stands for a missing one. */
  datatype Character = Character(id: string, name: string, image: string, house: string)

  /** What a rejected fetch throws: an `Error` instance with its message, or anything else. */
  datatype Thrown = ErrorInstance(message: string) | NonErrorValue

  /** How the single fetch at mount ends. */
  datatype FetchOutcome = Resolved(data: seq<Character>) | Rejected(thrown: Thrown)

  const UNKNOWN_ERROR_MESSAGE: string := "Unknown error occurred while loading characters."
  const NO_IMAGE_TEXT: string := "No image"
  const UNKNOWN_HOUSE: string := "Unknown house"
  const CHARACTERS_ROUTE: string := "/characters/"
  const LOADING_TEXT: string := "Loading characters..."
  const FAILED_PREFIX: string := "Failed to load characters. "

  /** The message stored for a rejected fetch. */
  function ErrorMessage(t: Thrown): (m: string)
    ensures t.ErrorInstance? ==> m == t.message
    ensures t.NonErrorValue? ==> m == UNKNOWN_ERROR_MESSAGE && m != ""
  {
    match t
    case ErrorInstance(message) => message
    case NonErrorValue => UNKNOWN_ERROR_MESSAGE
  }

  /** JavaScript truthiness of a `string | null`: present and non-empty. */
  predicate Truthy(s: Option<string>) {
    s.Some? && s.value != ""
  }

  /** The picture part of a row: the character's image, or the placeholder text. */
  datatype Picture = Image(src: string, alt: string) | Placeholder(text: string)

  /** One rendered card: a link target, its key, the picture, the name and the house label. */
  datatype Row = Row(href: string, key: string, picture: Picture, name: string, houseLabel: string)

  /** The card for one character, with the fallbacks for a missing image or house. */
  function RowOf(c: Character): (r: Row)
    ensures r.href == CHARACTERS_ROUTE + c.id && r.key == c.id && r.name == c.name
    ensures r.picture.Placeholder? <==> c.image == ""
    ensures r.picture.Placeholder? ==> r.picture.text == NO_IMAGE_TEXT
    ensures r.picture.Image? ==> r.picture.src == c.image && r.picture.alt == c.name
    ensures c.house != "" ==> r.houseLabel == c.house
    ensures c.house == "" ==> r.houseLabel == UNKNOWN_HOUSE
    ensures r.houseLabel != ""
  {
    Row(CHARACTERS_ROUTE + c.id, c.id,
        if c.image != "" then Image(c.image, c.name) else Placeholder(NO_IMAGE_TEXT),
        c.name,
        if c.house != "" then c.house else UNKNOWN_HOUSE)
  }

  /** The grid: one card per visible character, in order. */
  function Rows(vis: seq<Character>): (rs: seq<Row>)
    ensures |rs| == |vis|
    ensures forall i :: 0 <= i < |vis| ==> rs[i] == RowOf(vis[i])
  {
    if vis == [] then [] else [RowOf(vis[0])] + Rows(vis[1..])
  }

  /** The one block the page shows below its heading. */
  datatype Screen =
    | LoadingText(text: string)
    | ErrorText(text: string)
    | Grid(rows: seq<Row>, hasMore: bool)
    | Blank

  /** The state of one mounted `Characters` component. */
  class CharactersPage {
    var characters: seq<Character>
    var visibleCount: nat
    var isLoading: bool
    var error: Option<string>

    /** The state at mount: loading, no error, no characters, a window of one page. */
    constructor ()
      ensures characters == [] && visibleCount == ITEMS_PER_PAGE
      ensures isLoading && error == None
    {
      characters := [];
      visibleCount := ITEMS_PER_PAGE;
      isLoading := true;
      error := None;
    }

    /** The fetch starts: loading is switched on, nothing else changes. */
    method BeginFetch()
      modifies this`isLoading
      ensures isLoading
    {
      isLoading := true;
    }

    /** The fetch resolved: the list is stored and loading ends; error and window are kept. */
    method FetchSucceeded(data: seq<Character>)
      modifies this`characters, this`isLoading
      ensures characters == data && !isLoading
    {
      characters := data;
      isLoading := false;
    }

    /** The fetch rejected: its message is stored and loading ends; the list is kept. */
    method FetchFailed(t: Thrown)
      modifies this`error, this`isLoading
      ensures error == Some(ErrorMessage(t)) && !isLoading
    {
      error := Some(ErrorMessage(t));
      isLoading := false;
    }

    /**
     * A "load more" request, callable at any time: the count becomes
     * min(count + 13, |characters|), so the visible prefix only grows.
     */
    method LoadMore()
      modifies this`visibleCount
      ensures visibleCount == NextCount(old(visibleCount), |characters|)
      ensures old(Visible(characters, visibleCount)) <= Visible(characters, visibleCount)
      ensures !HasMore(characters, old(visibleCount)) ==> Visible(characters, visibleCount) == characters
    {
      LoadMoreKeepsVisiblePrefix(characters, visibleCount);
      visibleCount := NextCount(visibleCount, |characters|);
    }

    /** The loading paragraph is rendered. */
    predicate ShowsLoading()
      reads this
    {
      isLoading
    }

    /** The error paragraph is rendered: a truthy error once loading has ended. */
    predicate ShowsError()
      reads this
    {
      Truthy(error) && !isLoading
    }

    /** The grid is rendered: settled, no truthy error, at least one character. */
    predicate HasCharacters()
      reads this
    {
      !isLoading && !Truthy(error) && |characters| > 0
    }

    /**
     * What the page shows. Each of the three render conditions holds exactly
     * when the screen is the matching block, so no two are ever shown together,
     * and the page is blank exactly when it has settled on an empty list with
     * no truthy error.
     */
    function Display(): (s: Screen)
      reads this
      ensures s.LoadingText? <==> ShowsLoading()
      ensures s.ErrorText? <==> ShowsError()
      ensures s.Grid? <==> HasCharacters()
      ensures s.Blank? <==> !isLoading && !Truthy(error) && characters == []
      ensures s.LoadingText? ==> s.text == LOADING_TEXT
      ensures s.ErrorText? ==> s.text == FAILED_PREFIX + error.value && error.value != ""
      ensures s.Grid? ==> |s.rows| == Min(visibleCount, |characters|)
      ensures s.Grid? ==> forall i :: 0 <= i < |s.rows| ==> s.rows[i] == RowOf(characters[i])
      ensures s.Grid? ==> (s.hasMore <==> visibleCount < |characters|)
    {
      if isLoading then LoadingText(LOADING_TEXT)
      else if Truthy(error) then ErrorText(FAILED_PREFIX + error.value)
      else if |characters| > 0 then Grid(Rows(Visible(characters, visibleCount)), HasMore(characters, visibleCount))
      else Blank
    }
  }

  /**
   * Mounting the page: the initial state, then the effect's fetch, then its
   * outcome. A resolved fetch shows the first page of the list (or nothing
   * for an empty list); a rejected one keeps the list empty and shows its
   * message (or nothing when that message is empty).
   */
  method Mount(outcome: FetchOutcome) returns (page: CharactersPage)
    ensures fresh(page)
    ensures !page.isLoading && page.visibleCount == ITEMS_PER_PAGE
    ensures outcome.Resolved? ==> page.characters == outcome.data && page.error == None
    ensures outcome.Rejected? ==> page.characters == [] && page.error == Some(ErrorMessage(outcome.thrown))
    ensures outcome.Resolved? && outcome.data == [] ==> page.Display() == Blank
    ensures outcome.Resolved? && outcome.data != [] ==>
      page.Display() == Grid(Rows(Visible(outcome.data, ITEMS_PER_PAGE)), ITEMS_PER_PAGE < |outcome.data|)
    ensures outcome.Rejected? ==>
      page.Display() == if ErrorMessage(outcome.thrown) == "" then Blank else ErrorText(FAILED_PREFIX + ErrorMessage(outcome.thrown))
  {
    page := new CharactersPage();
    page.BeginFetch();
    match outcome
    case Resolved(data) => page.FetchSucceeded(data);
    case Rejected(t) => page.FetchFailed(t);
  }
}
