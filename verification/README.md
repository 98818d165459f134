# Spotify Artist Explorer: the rules behind the artist card

The artist page is a single browser script. The user pastes a bearer token and
an artist id, the script asks the Spotify catalogue for that artist and renders
the answer as a card. Around the network call and the DOM work sits a small
layer of pure decisions. This project models that layer in Dafny and proves
what it promises:

- **Popularity banding** (`Popularity`): the 0-100 score is mapped to one of
  five labels (Superestrella, Muy Popular, Popular, Emergente, Underground) and
  one of five Bootstrap classes, both by the thresholds 80/60/40/20.
- **Follower count** (`NumberFormat`): `formatNumber` chooses an `M` suffix,
  a `K` suffix or the plain integer.
- **The search button's handler** (`SearchHandler`): which artist id is used
  (a non-blank custom id beats the dropdown), the order of the two input checks
  (token first), and the error message chosen from the failure text (`401`
  before `404`, then a generic prefix).
- **Card fallbacks** (`ArtistCard`): first image or placeholder, genre badges
  joined in order or a single placeholder badge, the type with its first letter
  upper-cased, and the assembled pieces of the card.
- **String primitives** (`Text`): JavaScript's `trim`, `includes` and integer
  `toString`, written out so the rules above can be proved. A decimal parse
  shows that the plain follower count reads back as the number.

Everything is a total function over `int`, `string` and sequences. The source
has no loops or mutable state in this layer, so the model has none either.

## Model

| member | source | states |
|---|---|---|
| `Text.Trim` | artist-app.js:176-178 | the trimmed field occurs inside the raw one with only whitespace before and after it; it is empty exactly when the field is all ECMAScript whitespace; otherwise it starts and ends with a non-whitespace character |
| `Text.TrimStart` | artist-app.js:176 | the result is a suffix of the input; everything dropped is whitespace; the result does not start with whitespace |
| `Text.TrimEnd` | artist-app.js:176 | the result is a prefix of the input; everything dropped is whitespace; the result does not end with whitespace |
| `Text.TrimBlank` | artist-app.js:176-178 | trimming leaves nothing exactly when the field is all whitespace |
| `Text.TrimInside` | artist-app.js:176-178 | what trimming leaves is the block of the field that starts right after the leading whitespace |
| `Text.TrimDropsLeading` | artist-app.js:176-178 | everything before that block is whitespace |
| `Text.TrimDropsTrailing` | artist-app.js:176-178 | everything after that block is whitespace |
| `Text.TrimEnds` | artist-app.js:176-178 | what trimming leaves neither starts nor ends with whitespace |
| `Text.TrimIdempotent` | artist-app.js:176-178 | trimming an already trimmed field changes nothing |
| `Text.Includes` | artist-app.js:221-223 | `includes` is true exactly when the needle occurs at some position of the message |
| `Text.IncludesStep` | artist-app.js:221-223 | when the needle does not start at position 0, its occurrences are those in the rest of the message |
| `Text.IntToString` | artist-app.js:26 | a non-negative integer prints as its decimal digits; a negative one as `-` followed by the digits of its absolute value |
| `Text.NatToString` | artist-app.js:26 | the digits of a natural number are all decimal digits, with no leading zero, and there is one digit exactly when the number is below 10 |
| `Text.ParseNatToString` | artist-app.js:26 | parsing the printed digits of a natural number gives the number back |
| `Text.NatToStringLength` | artist-app.js:23-26 | a number below 1000 prints as at most three digits |
| `Popularity.PopularityLevel` | artist-app.js:130-136 | the label is the label of a band exactly when the score lies in that band's interval (>=80, [60,80), [40,60), [20,40), <20) |
| `Popularity.PopularityColor` | artist-app.js:139-145 | the class is the class of a band exactly when the score lies in that band's interval |
| `Popularity.BandsPartition` | artist-app.js:130-145 | every integer score lies in one band and in no other |
| `Popularity.NamesIdentifyBand` | artist-app.js:130-145 | the five labels are pairwise different, and so are the five classes |
| `Popularity.PopularityLevelTotal` | artist-app.js:130-145 | for every integer the level is one of the five labels and the colour one of the five classes |
| `Popularity.LevelAndColorAgree` | artist-app.js:45-46 | the level is a band's label exactly when the colour is that same band's class (Superestrella with bg-success, Muy Popular with bg-info, Popular with bg-warning, Emergente with bg-secondary, Underground with bg-danger) |
| `Popularity.PopularityMonotone` | artist-app.js:130-136 | a higher score never gets a lower band |
| `NumberFormat.FormatNumber` | artist-app.js:20-27 | the text ends in `M` exactly when the count is at least 1,000,000, in `K` exactly when it is in [1000, 1,000,000), and otherwise is the plain integer ending in a digit; the scaled branches append the suffix to the `toFixed(1)` rendering |
| `NumberFormat.FormatNumberPlainRoundTrip` | artist-app.js:26 | a count in [0, 1000) prints as at most three decimal digits that parse back to the count |
| `SearchHandler.ResolveArtistId` | artist-app.js:177-181 | a non-blank custom id wins, trimmed; otherwise the untrimmed dropdown value; the id is empty exactly when the custom field is all whitespace and the dropdown is empty |
| `SearchHandler.Validate` | artist-app.js:176-192 | a blank token gives the token error whatever the id; otherwise a missing id gives the id error; the handler fetches exactly when both are present, with the trimmed token and the resolved id |
| `SearchHandler.FetchArgumentsWellFormed` | artist-app.js:184-192 | whenever the handler fetches, it does so with a non-empty token that starts and ends with a non-whitespace character, and a non-empty id |
| `SearchHandler.BlankCustomIdFallsBack` | artist-app.js:178-181 | a custom id made only of whitespace leaves the dropdown's artist in force |
| `SearchHandler.StatusErrorMessage` | artist-app.js:12-14 | the thrown message is `Error `, the printed status, `: ` and the status text |
| `SearchHandler.ClassifyError` | artist-app.js:221-227 | a message with `401` gives the invalid-token text even if it also has `404`; otherwise one with `404` gives not-found; otherwise the generic prefix followed by the message |
| `SearchHandler.ClassifyErrorOutcomesDistinct` | artist-app.js:221-227 | the invalid-token text is shown exactly when the message contains `401`, the not-found text exactly when it contains `404` and not `401` |
| `SearchHandler.Status401IsInvalidToken` | artist-app.js:13 | a 401 response is always reported as an invalid or expired token |
| `SearchHandler.Status404IsNotFound` | artist-app.js:221-224 | a 404 response is reported as not-found unless its status text itself contains `401`, in which case it is reported as a token error |
| `SearchHandler.HeadHasNo401` | artist-app.js:13 | no `401` can start inside the `Error 404: ` head of a 404 message |
| `ArtistCard.ImageUrl` | artist-app.js:35-37 | the first image's URL when there is a first image; the placeholder URL when the list is missing or empty |
| `ArtistCard.Badge` | artist-app.js:41 | a badge is the opening span, the genre text verbatim, and the closing span |
| `ArtistCard.Badges` | artist-app.js:41 | the join of the badges is empty exactly when the genre list is empty |
| `ArtistCard.BadgesAppend` | artist-app.js:41 | the badges of two concatenated lists are the badges of the first followed by those of the second |
| `ArtistCard.BadgesSplitAt` | artist-app.js:41 | the joined badges are the badges of genres `0..i-1`, then genre `i` verbatim between the opening and closing span, then the badges of the genres after it |
| `ArtistCard.BadgeAt` | artist-app.js:41 | genre `i`'s text appears in full at its offset, followed by room for its closing span |
| `ArtistCard.BadgesPreserveOrder` | artist-app.js:41 | for `i < j`, genre `i`'s text ends, and its badge closes, before genre `j`'s text starts |
| `ArtistCard.GenresHtml` | artist-app.js:40-42 | the joined badges for a non-empty list; one placeholder badge for a missing or empty list; never empty |
| `ArtistCard.ToUpperAscii` | artist-app.js:108 | a lower-case ASCII letter becomes its upper-case letter; any other character is unchanged |
| `ArtistCard.Capitalize` | artist-app.js:108 | the length is kept, the first character is upper-cased and the rest is unchanged |
| `ArtistCard.CapitalizeIdempotent` | artist-app.js:108 | capitalising a capitalised type changes nothing |
| `ArtistCard.BuildCard` | artist-app.js:30-46 | the card's image, genres, follower text and type come from the matching fields, and its bar label and bar colour always belong to the band of the artist's popularity |

## Left out

- `fetchArtistInfo` and `getTestToken` (artist-app.js:2-17, 269-281): network calls, JSON parsing and `btoa`. Only the text of the error thrown for a failed response (line 13) is modelled, with the status and status text as parameters.
- NumberFormat.FormatNumber: the digits of `(num / 1000000).toFixed(1)` and `(num / 1000).toFixed(1)` are IEEE floating-point division and rounding. They are a function parameter `toFixed1`, so only the branch and the suffix are fixed.
- NumberFormat.FormatNumber: counts are integers. Fractional counts and `NaN` are not modelled. `Text.IntToString` prints plain decimal, so it does not model JavaScript's exponent notation for values at or below -10^21.
- Popularity.PopularityLevel, Popularity.PopularityColor: the score is an integer. An `undefined` or `NaN` score, for which every comparison is false and the result is Underground, is not modelled.
- ArtistCard.ToUpperAscii, ArtistCard.Capitalize: only ASCII letters are upper-cased. JavaScript's `toUpperCase` also maps other Unicode letters and can lengthen a string (`ß` becomes `SS`). `charAt` works on UTF-16 code units, while a Dafny `char` is a whole Unicode scalar value.
- Text.Trim: strings are sequences of Unicode scalar values, so lone UTF-16 surrogates cannot be represented.
- The artist record (`ArtistCard.Artist`) always has `followers` and `type`. In the source, a response without them makes `createArtistCard` throw, and that path is not modelled.
- No HTML escaping: the source puts genre names, the name, the id and URLs into the markup verbatim. The model does the same and claims no escaping. As a result, the genre list cannot in general be recovered from the badge HTML.
- DOM work is not modelled: the `innerHTML` template (artist-app.js:48-124), `clearArtist`, `showError`, `toggleLoading`, `scrollIntoView`, and the event listeners (artist-app.js:173-265). The listeners include the dropdown and custom-field mutual clearing and the Enter-key shortcuts.
- `showError`'s five-second `setTimeout` auto-hide (artist-app.js:161-163), which is timer-driven UI.
- The console log lines (artist-app.js:229, 284-285).
