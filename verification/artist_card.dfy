/**
  The values `createArtistCard` computes from the artist record before laying
  them out in the card's HTML template: the image, the genre badges, the
  follower count, the popularity label and colour, and the capitalised type.
 */
module ArtistCard {
  import opened Text
  import Popularity
  import NumberFormat

  datatype Option<T> = None | Some(value: T)

  datatype Image = Image(url: string)

  /**
    The artist record as the catalogue returns it, reduced to the fields the
    card reads. `images` and `genres` are optional: the card tests them before
    use. The other fields are read unconditionally.
   */
  datatype Artist = Artist(
    id: string,
    name: string,
    images: Option<seq<Image>>,
    genres: Option<seq<string>>,
    followers: int,
    popularity: int,
    kind: string,
    spotifyUrl: string)

  const PlaceholderImage := "https://via.placeholder.com/640x640/1DB954/ffffff?text=No+Image"
  const NoGenresText := "Sin géneros especificados"
  const BadgeOpen := "<span class=\"genre-badge\">"
  const BadgeClose := "</span>"

  /** The image shown: the first image's URL if there is a first image, the placeholder otherwise. */
  function ImageUrl(images: Option<seq<Image>>): (url: string)
    ensures images.Some? && |images.value| > 0 ==> url == images.value[0].url
    ensures images.None? || images.value == [] ==> url == PlaceholderImage
  {
    match images
    case Some(list) => if |list| > 0 then list[0].url else PlaceholderImage
    case None => PlaceholderImage
  }

  /** One genre badge; the genre text is inserted as it is, without HTML escaping. */
  function Badge(genre: string): (html: string)
    ensures |html| == |BadgeOpen| + |genre| + |BadgeClose|
    ensures html[..|BadgeOpen|] == BadgeOpen
    ensures html[|BadgeOpen|..|BadgeOpen| + |genre|] == genre
    ensures html[|BadgeOpen| + |genre|..] == BadgeClose
  {
    BadgeOpen + genre + BadgeClose
  }

  /** `genres.map(badge).join('')`: the badges of all genres, one after another. */
  function Badges(genres: seq<string>): (html: string)
    ensures genres == [] <==> html == ""
  {
    if genres == [] then "" else Badge(genres[0]) + Badges(genres[1..])
  }

  /** Joining badges distributes over concatenation of genre lists. */
  lemma {:induction false} BadgesAppend(a: seq<string>, b: seq<string>)
    ensures Badges(a + b) == Badges(a) + Badges(b)
  {
    if a == [] {
      assert a + b == b;
    } else {
      assert (a + b)[1..] == a[1..] + b;
      BadgesAppend(a[1..], b);
    }
  }

  /** Where the text of genre `i` starts in the joined badges. */
  function GenreOffset(genres: seq<string>, i: nat): (o: nat)
    requires i < |genres|
    ensures o >= |BadgeOpen|
  {
    |Badges(genres[..i])| + |BadgeOpen|
  }

  /**
    The joined badges split around genre `i`: the badges of the genres before
    it, then its own badge with its text verbatim, then the badges after it.
   */
  lemma BadgesSplitAt(genres: seq<string>, i: nat)
    requires i < |genres|
    ensures Badges(genres) == Badges(genres[..i]) + (BadgeOpen + genres[i] + BadgeClose) + Badges(genres[i + 1..])
  {
    var rest := genres[i..];
    assert genres == genres[..i] + rest;
    BadgesAppend(genres[..i], rest);
    assert rest[1..] == genres[i + 1..];
  }

  /** Genre `i`'s text appears in full at its offset in the joined badges. */
  lemma BadgeAt(genres: seq<string>, i: nat)
    requires i < |genres|
    ensures var o := GenreOffset(genres, i);
      o + |genres[i]| + |BadgeClose| <= |Badges(genres)| && Badges(genres)[o..o + |genres[i]|] == genres[i]
  {
    var g := genres[i];
    var x, y, z := Badges(genres[..i]), BadgeOpen + g + BadgeClose, Badges(genres[i + 1..]);
    BadgesSplitAt(genres, i);
    SliceInMiddle(Badges(genres), x, y, z, |BadgeOpen|, |BadgeOpen| + |g|);
    assert y[|BadgeOpen|..|BadgeOpen| + |g|] == g;
  }

  /** A slice that falls inside the middle part of a three-part string is a slice of that part. */
  lemma SliceInMiddle(w: string, x: string, y: string, z: string, lo: nat, hi: nat)
    requires w == x + y + z && lo <= hi <= |y|
    ensures |x| + hi <= |w|
    ensures w[|x| + lo..|x| + hi] == y[lo..hi]
  {
  }

  /** The join keeps the list's order: each genre's text ends before the next genre's text starts. */
  lemma BadgesPreserveOrder(genres: seq<string>, i: nat, j: nat)
    requires i < j < |genres|
    ensures GenreOffset(genres, i) + |genres[i]| + |BadgeClose| + |BadgeOpen| <= GenreOffset(genres, j)
  {
    assert genres[..j] == genres[..i] + [genres[i]] + genres[i + 1..j];
    BadgesAppend(genres[..i] + [genres[i]], genres[i + 1..j]);
    BadgesAppend(genres[..i], [genres[i]]);
    assert [genres[i]][1..] == [];
  }

  /** The genre block: the joined badges, or a single placeholder badge when the list is missing or empty. */
  function GenresHtml(genres: Option<seq<string>>): (html: string)
    ensures genres.Some? && |genres.value| > 0 ==> html == Badges(genres.value)
    ensures genres.None? || genres.value == [] ==> html == Badge(NoGenresText)
    ensures html != ""
  {
    match genres
    case Some(list) => if |list| > 0 then Badges(list) else Badge(NoGenresText)
    case None => Badge(NoGenresText)
  }

  /** `toUpperCase` on one character, for the ASCII letters. */
  function ToUpperAscii(c: char): (u: char)
    ensures 'a' <= c <= 'z' ==> u as int == c as int - 32 && 'A' <= u <= 'Z'
    ensures !('a' <= c <= 'z') ==> u == c
  {
    if 'a' <= c <= 'z' then (c as int - 32) as char else c
  }

  /** `type.charAt(0).toUpperCase() + type.slice(1)`. */
  function Capitalize(kind: string): (r: string)
    ensures |r| == |kind|
    ensures kind != [] ==> r[0] == ToUpperAscii(kind[0]) && r[1..] == kind[1..]
    ensures kind != [] ==> !('a' <= r[0] <= 'z')
  {
    if kind == "" then "" else [ToUpperAscii(kind[0])] + kind[1..]
  }

  /** Capitalising twice changes nothing more. */
  lemma CapitalizeIdempotent(kind: string)
    ensures Capitalize(Capitalize(kind)) == Capitalize(kind)
  {
  }

  /** The computed pieces of the card, before they are placed in the HTML template. */
  datatype CardView = CardView(
    imageUrl: string,
    genresHtml: string,
    followersText: string,
    popularityLevel: string,
    popularityColor: string,
    typeText: string)

  /**
    `createArtistCard` without the DOM: every piece comes from the field it
    formats. `toFixed1` stands for the floating-point `toFixed(1)` rendering.
   */
  function BuildCard(artist: Artist, toFixed1: (int, int) -> string): (card: CardView)
    ensures card.imageUrl == ImageUrl(artist.images)
    ensures card.genresHtml == GenresHtml(artist.genres)
    ensures card.followersText == NumberFormat.FormatNumber(artist.followers, toFixed1)
    ensures forall b: Popularity.Band ::
              b.Contains(artist.popularity) <==> card.popularityLevel == b.Label() && card.popularityColor == b.CssClass()
    ensures card.typeText == Capitalize(artist.kind)
  {
    CardView(
      ImageUrl(artist.images),
      GenresHtml(artist.genres),
      NumberFormat.FormatNumber(artist.followers, toFixed1),
      Popularity.PopularityLevel(artist.popularity),
      Popularity.PopularityColor(artist.popularity),
      Capitalize(artist.kind))
  }
}
