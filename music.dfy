/**
 * The music library screen: genres, songs, the scope/search filter, the genre scope list and the
 * fetch-once repository cache.
 *
 * `localizedCaseInsensitiveContains` is a parameter `contains(text, term)`. The artificial delays
 * (`Task.sleep`) only matter through cancellation, which is an input of the repository fetch.
 */
module Music {
  import opened Wrappers
  import opened Seqs
  import opened Text
  import opened LoadState

  datatype MusicGenre =
    | Classical | Jazz | Rock | Pop | Electronic | HipHop
    | CountryMusic | Folk | Blues | Reggae | Kpop | Trance

  /** The genre's raw value. */
  function RawValue(g: MusicGenre): (r: string)
    ensures |r| > 0 && r != "All"
  {
    match g
    case Classical => "Classical"
    case Jazz => "Jazz"
    case Rock => "Rock"
    case Pop => "Pop"
    case Electronic => "Electronic"
    case HipHop => "Hip Hop"
    case CountryMusic => "Country"
    case Folk => "Folk"
    case Blues => "Blues"
    case Reggae => "Reggae"
    case Kpop => "K-pop"
    case Trance => "Trance"
  }

  /** `SongModel`; its random `id` is not modelled. */
  datatype SongModel = SongModel(title: string, genres: seq<MusicGenre>)

  datatype SearchScopeOption = AllGenres | Genre(option: MusicGenre)

  /** `SearchScopeOption.title`. */
  function ScopeTitle(s: SearchScopeOption): (t: string)
    ensures |t| > 0
    ensures t == "All" <==> s.AllGenres?
  {
    match s
    case AllGenres => "All"
    case Genre(g) => RawValue(g)
  }

  /** Every genre, in ascending order of title. */
  const GenresByTitle: seq<MusicGenre> :=
    [Blues, Classical, CountryMusic, Electronic, Folk, HipHop, Jazz, Kpop, Pop, Reggae, Rock, Trance]

  lemma GenresByTitleSorted()
    ensures forall i, j :: 0 <= i < j < |GenresByTitle| ==> Less(RawValue(GenresByTitle[i]), RawValue(GenresByTitle[j]))
    ensures forall g :: g in GenresByTitle
  {
    forall g: MusicGenre ensures g in GenresByTitle {
      match g
      case Blues => assert GenresByTitle[0] == g;
      case Classical => assert GenresByTitle[1] == g;
      case CountryMusic => assert GenresByTitle[2] == g;
      case Electronic => assert GenresByTitle[3] == g;
      case Folk => assert GenresByTitle[4] == g;
      case HipHop => assert GenresByTitle[5] == g;
      case Jazz => assert GenresByTitle[6] == g;
      case Kpop => assert GenresByTitle[7] == g;
      case Pop => assert GenresByTitle[8] == g;
      case Reggae => assert GenresByTitle[9] == g;
      case Rock => assert GenresByTitle[10] == g;
      case Trance => assert GenresByTitle[11] == g;
    }
  }

  /** No two scopes share a title, so the title names the scope. */
  lemma ScopeTitlesDistinct(a: SearchScopeOption, b: SearchScopeOption)
    ensures ScopeTitle(a) == ScopeTitle(b) ==> a == b
  {
  }

  /** `song.genres.map(\.rawValue).joined(separator: ", ")`. */
  function GenreNames(genres: seq<MusicGenre>): string {
    Join(seq(|genres|, i requires 0 <= i < |genres| => RawValue(genres[i])), ", ")
  }

  /** The filter closure of `filterSongs(for:searchText:)`. */
  predicate SongMatches(song: SongModel, scope: SearchScopeOption, text: string, contains: (string, string) -> bool) {
    (match scope
     case AllGenres => true
     case Genre(g) => g in song.genres)
    && (text == "" || contains(song.title, text) || contains(GenreNames(song.genres), text))
  }

  /**
   * The two halves of the filter combine independently: a genre scope narrows the "All" scope to the
   * songs carrying the genre, and an empty search text leaves only the scope to decide.
   */
  lemma ScopeAndTextCombine(song: SongModel, scope: SearchScopeOption, g: MusicGenre, text: string, contains: (string, string) -> bool)
    ensures SongMatches(song, Genre(g), text, contains) <==> g in song.genres && SongMatches(song, AllGenres, text, contains)
    ensures SongMatches(song, scope, "", contains) <==> scope.AllGenres? || scope.option in song.genres
  {
  }

  /** The list `filterSongs(for:searchText:)` shows. */
  function FilterSongs(songs: seq<SongModel>, scope: SearchScopeOption, text: string, contains: (string, string) -> bool): (r: seq<SongModel>)
    ensures forall s :: s in r <==> s in songs && SongMatches(s, scope, text, contains)
  {
    Filter(songs, s => SongMatches(s, scope, text, contains))
  }

  lemma FilterSongsKeepsOrder(songs: seq<SongModel>, scope: SearchScopeOption, text: string, contains: (string, string) -> bool)
    ensures IsSubsequence(FilterSongs(songs, scope, text, contains), songs)
  {
    FilterIsSubsequence(songs, s => SongMatches(s, scope, text, contains));
  }

  /** With scope "All" and no search text every song is shown. */
  lemma UnfilteredShowsAll(songs: seq<SongModel>, contains: (string, string) -> bool)
    ensures FilterSongs(songs, AllGenres, "", contains) == songs
  {
    FilterKeepsAll(songs, s => SongMatches(s, AllGenres, "", contains));
  }

  predicate UsedBy(g: MusicGenre, songs: seq<SongModel>) {
    exists s :: s in songs && g in s.genres
  }

  /** Each genre is titled before every genre after it. */
  ghost predicate AscendingTitles(gs: seq<MusicGenre>) {
    forall i, j :: 0 <= i < j < |gs| ==> Less(RawValue(gs[i]), RawValue(gs[j]))
  }

  /** The genres some song has, each once, by ascending title. */
  function UsedGenres(songs: seq<SongModel>): (r: seq<MusicGenre>)
    ensures forall g :: g in r <==> UsedBy(g, songs)
    ensures AscendingTitles(r)
  {
    GenresByTitleSorted();
    FilterKeepsOrder(GenresByTitle, g => UsedBy(g, songs), (a, b) => Less(RawValue(a), RawValue(b)));
    Filter(GenresByTitle, g => UsedBy(g, songs))
  }

  /** One scope per genre, in the same order. */
  function GenreScopes(gs: seq<MusicGenre>): (r: seq<SearchScopeOption>)
    ensures |r| == |gs| && forall i :: 0 <= i < |gs| ==> r[i] == Genre(gs[i])
  {
    seq(|gs|, i requires 0 <= i < |gs| => Genre(gs[i]))
  }

  lemma GenreScopesMembership(gs: seq<MusicGenre>)
    ensures forall g :: Genre(g) in GenreScopes(gs) <==> g in gs
    ensures AllGenres !in GenreScopes(gs)
  {
    var r := GenreScopes(gs);
    forall g | g in gs ensures Genre(g) in r {
      var k :| 0 <= k < |gs| && gs[k] == g;
      assert r[k] == Genre(g);
    }
  }

  /** `availableGenres` after loading: "All", then each genre some song has, once, by ascending title. */
  function AvailableGenres(songs: seq<SongModel>): (r: seq<SearchScopeOption>)
    ensures |r| >= 1 && r[0] == AllGenres
    ensures r[1..] == GenreScopes(UsedGenres(songs))
    ensures forall g :: Genre(g) in r <==> UsedBy(g, songs)
  {
    var tail := GenreScopes(UsedGenres(songs));
    GenreScopesMembership(UsedGenres(songs));
    assert ([AllGenres] + tail)[1..] == tail;
    [AllGenres] + tail
  }

  /** The genre scopes after "All" are in strictly ascending order of title, so none repeats. */
  lemma AvailableGenresAscending(songs: seq<SongModel>)
    ensures forall i, j :: 1 <= i < j < |AvailableGenres(songs)| ==>
      Less(ScopeTitle(AvailableGenres(songs)[i]), ScopeTitle(AvailableGenres(songs)[j]))
  {
    var r := AvailableGenres(songs);
    var used := UsedGenres(songs);
    forall i, j | 1 <= i < j < |r| ensures Less(ScopeTitle(r[i]), ScopeTitle(r[j])) {
      assert r[i] == r[1..][i - 1] == Genre(used[i - 1]);
      assert r[j] == r[1..][j - 1] == Genre(used[j - 1]);
      assert Less(RawValue(used[i - 1]), RawValue(used[j - 1]));
    }
  }

  datatype MusicError = NetworkError(message: string) | DataProcessingError(message: string) | CancellationError

  /** `MusicRepositoryImpl`: the first successful fetch is cached under key 1 and served from then on. */
  class MusicRepository {
    const cacheKey: int
    var cache: map<int, seq<SongModel>>

    constructor()
      ensures cacheKey == 1 && cache == map[]
    {
      cacheKey := 1;
      cache := map[];
    }

    /**
     * `fetchAllSongs()`. `source` is what the data source returns; `cancelled` says whether the task
     * was cancelled during the simulated delay, which only happens when nothing is cached yet.
     */
    method FetchAllSongs(source: seq<SongModel>, cancelled: bool) returns (r: Result<seq<SongModel>, MusicError>)
      modifies this
      ensures cacheKey in old(cache) ==> r == Ok(old(cache)[cacheKey]) && cache == old(cache)
      ensures cacheKey !in old(cache) && cancelled ==> r == Err(CancellationError) && cache == old(cache)
      ensures cacheKey !in old(cache) && !cancelled ==> r == Ok(source) && cache == old(cache)[cacheKey := source]
    {
      var key := cacheKey;
      if key in cache {
        return Ok(cache[key]);
      }
      if cancelled {
        return Err(CancellationError);
      }
      cache := cache[key := source];
      return Ok(source);
    }
  }

  /** Once a fetch has succeeded, every later fetch returns the same songs, whatever the source would say. */
  method FetchTwice(repo: MusicRepository, first: seq<SongModel>, second: seq<SongModel>, cancelled: bool)
    returns (a: Result<seq<SongModel>, MusicError>, b: Result<seq<SongModel>, MusicError>)
    modifies repo
    ensures a.Ok? ==> b == a
  {
    a := repo.FetchAllSongs(first, false);
    b := repo.FetchAllSongs(second, cancelled);
  }

  /** The view model's published state. */
  class MusicViewModel {
    var filteredMusic: DataListState<seq<SongModel>, MusicError>
    var availableGenres: seq<SearchScopeOption>

    constructor()
      ensures filteredMusic == FirstLoading && availableGenres == [AllGenres]
    {
      filteredMusic := FirstLoading;
      availableGenres := [AllGenres];
    }

    /** `getAllSongs()`, with `result` the outcome of the use case once its task has run. */
    method GetAllSongs(result: Result<seq<SongModel>, MusicError>)
      modifies this
      ensures result.Ok? ==> filteredMusic == Success(result.value) && availableGenres == AvailableGenres(result.value)
      ensures result.Err? ==> filteredMusic == Failure(result.error) && availableGenres == old(availableGenres)
    {
      filteredMusic := Working;
      match result
      case Ok(songs) =>
        availableGenres := AvailableGenres(songs);
        filteredMusic := Success(songs);
      case Err(e) =>
        filteredMusic := Failure(e);
    }

    /** `filterSongs(for:searchText:)`: a cancelled search leaves the list in the working state. */
    method FilterSongsFor(scope: SearchScopeOption, text: string, result: Result<seq<SongModel>, MusicError>,
                          cancelled: bool, contains: (string, string) -> bool)
      modifies this`filteredMusic
      ensures result.Ok? ==> filteredMusic == Success(FilterSongs(result.value, scope, text, contains))
      ensures result.Err? && cancelled ==> filteredMusic == Working
      ensures result.Err? && !cancelled ==> filteredMusic == Failure(result.error)
    {
      filteredMusic := Working;
      match result
      case Ok(all) =>
        filteredMusic := Success(FilterSongs(all, scope, text, contains));
      case Err(e) =>
        if !cancelled {
          filteredMusic := Failure(e);
        }
    }
  }
}
