/** The campaign creation page (`CriarApoio`): the form with its limits and
    filters, the checks in order, and the campaign row it inserts. */
module CriarApoio {
  import opened Wrappers
  import opened Money
  import opened Fields
  import opened Web
  import opened Infinitepay
  import opened Campaigns
  import opened Ledger

  const TitleLength: nat := 100
  const DescriptionLength: nat := 2000
  const GoalDigits: nat := 9
  const ImageUrlLength: nat := 500
  const HandleLength: nat := 50
  const MinimumTitleLength: nat := 5
  const MinimumHandleLength: nat := 3
  const MinimumGoal: int := 100
  /** R$ 9.999.999,00 in cents. */
  const MaximumGoal: int := 999999900

  /** A character of `[a-zA-Z0-9_-]`. */
  predicate IsHandleChar(c: char) {
    ('a' <= c <= 'z') || ('A' <= c <= 'Z') || ('0' <= c <= '9') || c == '_' || c == '-'
  }

  predicate IsHandle(s: string) {
    forall k :: 0 <= k < |s| ==> IsHandleChar(s[k])
  }

  /** `input.replace(/[^a-zA-Z0-9_-]/g, '')`. */
  function FilterHandle(input: string): (r: string)
    ensures IsHandle(r)
    ensures |r| <= |input|
    ensures forall c :: c in r <==> c in input && IsHandleChar(c)
  {
    if input == [] then []
    else
      var rest := FilterHandle(input[1..]);
      if IsHandleChar(input[0]) then [input[0]] + rest else rest
  }

  /** A string made only of handle characters passes the filter unchanged, so
      filtering twice is filtering once. */
  lemma {:induction false} FilterHandleKeepsHandles(s: string)
    requires IsHandle(s)
    ensures FilterHandle(s) == s
  {
    if s != [] {
      FilterHandleKeepsHandles(s[1..]);
    }
  }

  /** A single character is kept when it is in the set and dropped when not. */
  lemma FilterHandleSingle(c: char)
    ensures FilterHandle([c]) == if IsHandleChar(c) then [c] else []
  {
    assert [c][1..] == [];
  }

  /** The filter works piece by piece, in order: what it keeps from `a + b` is
      what it keeps from `a` followed by what it keeps from `b`. With
      `FilterHandleSingle` this fixes the filter on every string. */
  lemma {:induction false} FilterHandleAppend(a: string, b: string)
    ensures FilterHandle(a + b) == FilterHandle(a) + FilterHandle(b)
  {
    if a == [] {
      assert a + b == b;
    } else {
      assert (a + b)[1..] == a[1..] + b;
      FilterHandleAppend(a[1..], b);
    }
  }

  lemma FilterHandleIdempotent(input: string)
    ensures FilterHandle(FilterHandle(input)) == FilterHandle(input)
  {
    FilterHandleKeepsHandles(FilterHandle(input));
  }

  /** `handleInfinitepayChange`: the filtered input when it has at most 50
      characters, otherwise the field keeps its value. */
  function HandleFieldChange(current: string, input: string): (r: string)
    ensures IsHandle(current) && |current| <= HandleLength ==> IsHandle(r) && |r| <= HandleLength
    ensures |FilterHandle(input)| <= HandleLength ==> r == FilterHandle(input)
    ensures |FilterHandle(input)| > HandleLength ==> r == current
  {
    var validChars := FilterHandle(input);
    if |validChars| <= HandleLength then validChars else current
  }

  /** `isValidImageUrl`: `new URL(url)` parses and its protocol is `http:` or
      `https:`. */
  function IsValidImageUrl(parsed: ParsedUrl): (b: bool)
    ensures b <==> parsed.Parsed? && (parsed.protocol == "http:" || parsed.protocol == "https:")
  {
    match parsed
    case Unparseable => false
    case Parsed(protocol, _) => protocol == "http:" || protocol == "https:"
  }

  /** Why a campaign is refused. `DescriptionTooShort` is the check of a
      description shorter than one character, which the check for missing
      fields has already made impossible. */
  datatype CreateFailure =
    | NoUser
    | MissingFields
    | TitleTooShort
    | DescriptionTooShort
    | HandleTooShort
    | GoalTooLow
    | GoalTooHigh
    | InvalidImageUrl

  /** The checks of `handleSubmit`, in order; the goal in cents when all pass.
      `parsedImage` is `new URL(imagemUrl)`. */
  function CheckNewCampaign(user: Option<UserData>, titulo: string, descricao: string, metaValor: string,
                            handle: string, imagemUrl: string, parsedImage: ParsedUrl): (r: Result<int, CreateFailure>)
    ensures r.Ok? <==>
      && user.Some? && titulo != "" && descricao != "" && metaValor != "" && handle != ""
      && |titulo| >= MinimumTitleLength && |handle| >= MinimumHandleLength
      && MinimumGoal <= ParseValueToCents(metaValor) <= MaximumGoal
      && (imagemUrl == "" || IsValidImageUrl(parsedImage))
    ensures r.Ok? ==> r.value == ParseValueToCents(metaValor)
    ensures r == Err(NoUser) <==> user.None?
    ensures r == Err(MissingFields) <==>
      user.Some? && (titulo == "" || descricao == "" || metaValor == "" || handle == "")
    ensures r != Err(DescriptionTooShort)
    ensures r == Err(TitleTooShort) <==>
      user.Some? && titulo != "" && descricao != "" && metaValor != "" && handle != ""
      && |titulo| < MinimumTitleLength
    ensures r == Err(HandleTooShort) <==>
      user.Some? && titulo != "" && descricao != "" && metaValor != "" && handle != ""
      && |titulo| >= MinimumTitleLength && |handle| < MinimumHandleLength
    ensures r == Err(GoalTooLow) <==>
      user.Some? && titulo != "" && descricao != "" && metaValor != "" && handle != ""
      && |titulo| >= MinimumTitleLength && |handle| >= MinimumHandleLength
      && ParseValueToCents(metaValor) < MinimumGoal
    ensures r == Err(GoalTooHigh) <==>
      user.Some? && titulo != "" && descricao != "" && metaValor != "" && handle != ""
      && |titulo| >= MinimumTitleLength && |handle| >= MinimumHandleLength
      && ParseValueToCents(metaValor) > MaximumGoal
    ensures r == Err(InvalidImageUrl) <==>
      user.Some? && titulo != "" && descricao != "" && metaValor != "" && handle != ""
      && |titulo| >= MinimumTitleLength && |handle| >= MinimumHandleLength
      && MinimumGoal <= ParseValueToCents(metaValor) <= MaximumGoal && imagemUrl != "" && !IsValidImageUrl(parsedImage)
  {
    if user.None? then Err(NoUser)
    else if titulo == "" || descricao == "" || metaValor == "" || handle == "" then Err(MissingFields)
    else if |titulo| < MinimumTitleLength then Err(TitleTooShort)
    else if |descricao| < 1 then Err(DescriptionTooShort)
    else if |handle| < MinimumHandleLength then Err(HandleTooShort)
    else
      var metaValorCentavos := ParseValueToCents(metaValor);
      if metaValorCentavos < MinimumGoal then Err(GoalTooLow)
      else if metaValorCentavos > MaximumGoal then Err(GoalTooHigh)
      else if imagemUrl != "" && !IsValidImageUrl(parsedImage) then Err(InvalidImageUrl)
      else Ok(metaValorCentavos)
  }

  /** The row inserted for an accepted form, as the database stores it under
      the id `id`: it starts with nothing raised and no status. */
  function NewCampaignRow(id: string, user: UserData, titulo: string, descricao: string, metaValorCentavos: int,
                          imagemUrl: string, handle: string): (c: Campaign)
    ensures c.id == id && c.titulo == titulo && c.descricao == descricao && c.handleInfinitepay == handle
    ensures c.metaValor == metaValorCentavos && c.valorAtual == 0 && c.status.None?
    ensures c.userId == Some(user.id)
    ensures c.imagemUrl.None? <==> imagemUrl == ""
    ensures c.imagemUrl.Some? ==> c.imagemUrl.value == imagemUrl
  {
    Campaign(id, titulo, descricao, metaValorCentavos, 0,
             if imagemUrl != "" then Some(imagemUrl) else None,
             handle, Some(user.id), None)
  }

  /** A newly created campaign is open, and its creator owns it. */
  lemma NewCampaignOpenAndOwned(id: string, user: UserData, titulo: string, descricao: string, metaValor: string,
                                handle: string, imagemUrl: string, parsedImage: ParsedUrl)
    requires CheckNewCampaign(Some(user), titulo, descricao, metaValor, handle, imagemUrl, parsedImage).Ok?
    ensures var goal := CheckNewCampaign(Some(user), titulo, descricao, metaValor, handle, imagemUrl, parsedImage).value;
      var c := NewCampaignRow(id, user, titulo, descricao, goal, imagemUrl, handle);
      !IsFinished(c) && IsOwner(Some(user), Some(c))
  {
  }

  /** How a submission ends. */
  datatype Outcome = Refused(reason: CreateFailure) | InsertFailed | Created(path: string)

  /** The page's state. */
  class Page {
    var loading: bool
    var titulo: string
    var descricao: string
    var metaValor: string
    var imagemUrl: string
    var handleInfinitepay: string

    ghost predicate Valid()
      reads this
    {
      && |titulo| <= TitleLength
      && |descricao| <= DescriptionLength
      && ParseValueToCents(metaValor) < Pow10(GoalDigits)
      && |imagemUrl| <= ImageUrlLength
      && |handleInfinitepay| <= HandleLength && IsHandle(handleInfinitepay)
    }

    constructor ()
      ensures Valid()
      ensures !loading && titulo == "" && descricao == "" && metaValor == "" && imagemUrl == ""
      ensures handleInfinitepay == ""
    {
      loading := false;
      titulo := "";
      descricao := "";
      metaValor := "";
      imagemUrl := "";
      handleInfinitepay := "";
    }

    /** `handleMetaValorChange`: at most nine digits. */
    method HandleMetaValorChange(input: string)
      requires Valid()
      modifies this`metaValor
      ensures Valid()
      ensures metaValor == ValueFieldChange(old(metaValor), input, GoalDigits)
    {
      ValueFieldStaysBounded(metaValor, input, GoalDigits);
      metaValor := ValueFieldChange(metaValor, input, GoalDigits);
    }

    /** `handleTituloChange`: at most 100 characters. */
    method HandleTituloChange(input: string)
      requires Valid()
      modifies this`titulo
      ensures Valid()
      ensures titulo == TextFieldChange(old(titulo), input, TitleLength)
    {
      titulo := TextFieldChange(titulo, input, TitleLength);
    }

    /** `handleDescricaoChange`: at most 2000 characters. */
    method HandleDescricaoChange(input: string)
      requires Valid()
      modifies this`descricao
      ensures Valid()
      ensures descricao == TextFieldChange(old(descricao), input, DescriptionLength)
    {
      descricao := TextFieldChange(descricao, input, DescriptionLength);
    }

    /** `handleImagemUrlChange`: at most 500 characters. */
    method HandleImagemUrlChange(input: string)
      requires Valid()
      modifies this`imagemUrl
      ensures Valid()
      ensures imagemUrl == TextFieldChange(old(imagemUrl), input, ImageUrlLength)
    {
      imagemUrl := TextFieldChange(imagemUrl, input, ImageUrlLength);
    }

    /** `handleInfinitepayChange`. */
    method HandleInfinitepayChange(input: string)
      requires Valid()
      modifies this`handleInfinitepay
      ensures Valid()
      ensures handleInfinitepay == HandleFieldChange(old(handleInfinitepay), input)
    {
      handleInfinitepay := HandleFieldChange(handleInfinitepay, input);
    }

    /** `handleSubmit`. `user` is the signed-in provider user, `parsedImage`
        is `new URL(imagemUrl)`, `newId` the id the database gives the row and
        `insertOk` whether the insert succeeds. */
    method HandleSubmit(db: Database, user: Option<UserData>, parsedImage: ParsedUrl, newId: string, insertOk: bool)
      returns (outcome: Outcome)
      requires Valid() && db.Valid()
      modifies this`loading, db
      ensures Valid() && db.Valid()
      ensures db.contributions == old(db.contributions)
      ensures var check := CheckNewCampaign(user, old(titulo), old(descricao), old(metaValor),
                                            old(handleInfinitepay), old(imagemUrl), parsedImage);
        && (check.Err? ==> outcome == Refused(check.error) && loading == old(loading) && db.campaigns == old(db.campaigns))
        && (check.Ok? ==> !loading)
        && (check.Ok? ==>
              db.campaigns == if insertOk
                then old(db.campaigns)[newId := NewCampaignRow(newId, user.value, old(titulo), old(descricao),
                                                               check.value, old(imagemUrl), old(handleInfinitepay))]
                else old(db.campaigns))
        && (check.Ok? ==> outcome == if insertOk then Created("/apoio/" + newId) else InsertFailed)
    {
      var check := CheckNewCampaign(user, titulo, descricao, metaValor, handleInfinitepay, imagemUrl, parsedImage);
      if check.Err? {
        outcome := Refused(check.error);
        return;
      }
      loading := true;
      var row := NewCampaignRow(newId, user.value, titulo, descricao, check.value, imagemUrl, handleInfinitepay);
      var error := db.InsertCampaign(newId, row, insertOk);
      if error {
        outcome := InsertFailed;
      } else {
        outcome := Created("/apoio/" + newId);
      }
      loading := false;
    }
  }
}
