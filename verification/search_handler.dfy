/**
  The decisions taken by the click handler of the search button: which artist
  id to look up, whether the input is complete enough to call the catalogue,
  and which message to show when the call fails.
 */
module SearchHandler {
  import opened Text

  const MissingTokenMessage := "Por favor, ingresa tu Bearer Token de Spotify"
  const MissingArtistMessage := "Por favor, selecciona un artista o ingresa un ID personalizado"
  // The verifier only sees the length of a long string literal, not its characters;
  // the messages below are joined from two shorter literals so that they can be told apart.
  const InvalidTokenMessage := "Token inválido o expirado. " + "Por favor, genera un nuevo token."
  const NotFoundMessage := "Artista no encontrado. " + "Verifica el ID del artista."
  const GenericErrorPrefix := "Error al obtener " + "información del artista: "

  /** What the handler does with the three input fields. */
  datatype Validation =
    | ShowError(message: string)
    | Fetch(token: string, artistId: string)

  /**
    `customArtistId || selectedArtist`: the trimmed custom id when it is not
    empty, the dropdown value (untrimmed) otherwise.
   */
  function ResolveArtistId(selectedArtist: string, customField: string): (id: string)
    ensures Trim(customField) != "" ==> id == Trim(customField)
    ensures Trim(customField) == "" ==> id == selectedArtist
    ensures id == "" <==> AllWhitespace(customField) && selectedArtist == ""
  {
    var custom := Trim(customField);
    if custom != "" then custom else selectedArtist
  }

  /**
    The early returns of the handler: a blank token is reported first, even
    when no artist was chosen either; a missing id is reported next; only with
    both present does the handler go on to fetch, with the trimmed token.
   */
  function Validate(tokenField: string, selectedArtist: string, customField: string): (v: Validation)
    ensures AllWhitespace(tokenField) ==> v == ShowError(MissingTokenMessage)
    ensures !AllWhitespace(tokenField) && ResolveArtistId(selectedArtist, customField) == ""
      ==> v == ShowError(MissingArtistMessage)
    ensures v.Fetch? <==> !AllWhitespace(tokenField) && ResolveArtistId(selectedArtist, customField) != ""
    ensures v.Fetch? ==> v.token == Trim(tokenField) && v.artistId == ResolveArtistId(selectedArtist, customField)
  {
    var token := Trim(tokenField);
    var artistId := ResolveArtistId(selectedArtist, customField);
    if token == "" then
      ShowError(MissingTokenMessage)
    else if artistId == "" then
      ShowError(MissingArtistMessage)
    else
      Fetch(token, artistId)
  }

  /** A fetch is only issued with a non-empty token that has no surrounding whitespace, and a non-empty id. */
  lemma FetchArgumentsWellFormed(tokenField: string, selectedArtist: string, customField: string)
    ensures var v := Validate(tokenField, selectedArtist, customField);
      v.Fetch? ==> v.token != "" && v.artistId != "" && NoOuterWhitespace(v.token)
  {
    var v := Validate(tokenField, selectedArtist, customField);
    if v.Fetch? {
      assert v.token == Trim(tokenField);
    }
  }

  /**
    Given the handler's three inputs, a custom id that is only whitespace does
    not hide the dropdown choice. This is about the handler alone: the page's
    `input` listener clears the dropdown as soon as the custom field has any
    content, whitespace included, so through the page a blank custom id
    usually ends in the missing-artist message.
   */
  lemma BlankCustomIdFallsBack(tokenField: string, selectedArtist: string, customField: string)
    requires !AllWhitespace(tokenField) && AllWhitespace(customField) && selectedArtist != ""
    ensures Validate(tokenField, selectedArtist, customField) == Fetch(Trim(tokenField), selectedArtist)
  {
  }

  /** The message `fetchArtistInfo` throws for a response that is not ok. */
  function StatusErrorMessage(status: int, statusText: string): (m: string)
    ensures |m| >= 9 + |statusText| && m[..6] == "Error "
    ensures m[6..|m| - |statusText| - 2] == IntToString(status)
    ensures m[|m| - |statusText| - 2..] == ": " + statusText
  {
    var code := IntToString(status);
    var m := "Error " + code + (": " + statusText);
    assert m[..6] == "Error ";
    assert m[6..|m| - |statusText| - 2] == code;
    assert m[|m| - |statusText| - 2..] == ": " + statusText;
    m
  }

  /**
    The catch block's choice of message: a "401" anywhere in the error message
    means a bad token, even if "404" also appears; otherwise a "404" means the
    artist was not found; anything else is shown after a generic prefix.
   */
  function ClassifyError(message: string): (r: string)
    ensures Includes(message, "401") ==> r == InvalidTokenMessage
    ensures !Includes(message, "401") && Includes(message, "404") ==> r == NotFoundMessage
    ensures !Includes(message, "401") && !Includes(message, "404") ==> r == GenericErrorPrefix + message
  {
    if Includes(message, "401") then InvalidTokenMessage
    else if Includes(message, "404") then NotFoundMessage
    else GenericErrorPrefix + message
  }

  /** The three outcomes are told apart by the user: the generic message never equals the other two. */
  lemma ClassifyErrorOutcomesDistinct(message: string)
    ensures ClassifyError(message) == InvalidTokenMessage <==> Includes(message, "401")
    ensures ClassifyError(message) == NotFoundMessage <==> !Includes(message, "401") && Includes(message, "404")
  {
  }

  /** A 401 response from the catalogue is always reported as an invalid or expired token. */
  lemma Status401IsInvalidToken(statusText: string)
    ensures ClassifyError(StatusErrorMessage(401, statusText)) == InvalidTokenMessage
  {
    var m := StatusErrorMessage(401, statusText);
    assert m[6..9] == "401";
    assert OccursAt(m, "401", 6);
  }

  /**
    A 404 response is reported as "not found", unless its status text itself
    contains "401": the 401 test comes first and looks at the whole message.
   */
  lemma {:induction false} Status404IsNotFound(statusText: string)
    ensures ClassifyError(StatusErrorMessage(404, statusText)) ==
      if Includes(statusText, "401") then InvalidTokenMessage else NotFoundMessage
  {
    var m := StatusErrorMessage(404, statusText);
    var prefix := "Error 404: ";
    assert m == prefix + statusText;
    assert OccursAt(m, "404", 6);
    if i :| OccursAt(statusText, "401", i) {
      assert m[i + 11..i + 14] == statusText[i..i + 3];
      assert OccursAt(m, "401", i + 11);
    }
    HeadHasNo401(statusText);
    if i :| OccursAt(m, "401", i) {
      assert i >= 11;
      assert m[i..i + 3] == statusText[i - 11..i - 8];
      assert OccursAt(statusText, "401", i - 11);
    }
  }

  /** No "401" can start inside the head "Error 404: " of a 404 message. */
  lemma HeadHasNo401(statusText: string)
    ensures forall i :: 0 <= i < 11 ==> !OccursAt("Error 404: " + statusText, "401", i)
  {
    var m := "Error 404: " + statusText;
    forall i | 0 <= i < 11 ensures !OccursAt(m, "401", i) {
      if i + 3 <= |m| {
        var w := m[i..i + 3];
        assert w[0] == m[i] && w[1] == m[i + 1] && w[2] == m[i + 2];
        if i == 6 {
          assert w[2] == '4';
        } else if i == 8 {
          assert w[1] == ':';
        } else {
          assert w[0] != '4';
        }
      }
    }
  }
}
