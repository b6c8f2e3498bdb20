/** The popup's store operations: saving the Telegram settings, masking them for display,
    adding an alert and deleting one. Form fields arrive as parameters. */
module Popup {
  import opened Wrappers
  import opened Text
  import opened Alerts
  import opened Extension
  import Background

  /** The marker a masked value carries. */
  const Stars: string := "***"

  // ---------------------------------------------------------------------------
  // Masking a stored credential for display

  /** maskSensitiveData: a value shorter than 8 is shown as it is. A bot token (it has a
      ':') shows 3 characters of its first segment and the last 3 of its second around
      "***:***"; anything else shows its first 3 and last 3 characters around "***". */
  function MaskSensitiveData(data: string): string
  {
    if |data| < 8 then data
    else if ':' in data then
      var parts := Split(data, ':');
      Prefix(parts[0], 3) + "***:***" + Suffix(parts[1], 3)
    else
      data[..3] + Stars + data[|data| - 3..]
  }

  /** A short value, the empty one included, is shown unmasked. */
  lemma MaskShortUnchanged(data: string)
    requires |data| < 8
    ensures MaskSensitiveData(data) == data
  {
  }

  /** Without a ':' the mask keeps the first and last three characters: nine in all. */
  lemma MaskPlainShape(data: string)
    requires |data| >= 8 && ':' !in data
    ensures var m := MaskSensitiveData(data);
      |m| == 9 && m[..3] == data[..3] && m[3..6] == Stars && m[6..] == data[|data| - 3..]
  {
  }

  /** With a ':' the mask shows at most three characters from before the first ':' and
      at most the last three from between the first ':' and the next one (or the end);
      whatever follows a second ':' is dropped. */
  lemma MaskTokenShape(data: string)
    requires |data| >= 8 && ':' in data
    ensures var k := IndexOf(data, ':');
      var rest := data[k + 1..];
      MaskSensitiveData(data) ==
        Prefix(data[..k], 3) + "***:***" + Suffix(rest[..IndexOf(rest, ':')], 3)
  {
    var k := IndexOf(data, ':');
    var rest := data[k + 1..];
    SplitAtFirst(data, ':');
    SplitAtFirst(rest, ':');
    var parts := Split(data, ':');
    assert parts[1] == parts[1..][0] == Split(rest, ':')[0];
  }

  /** Every masked value carries the "***" marker. */
  lemma MaskCarriesStars(data: string)
    requires |data| >= 8
    ensures Contains(MaskSensitiveData(data), Stars)
  {
    if ':' in data {
      var parts := Split(data, ':');
      var tail := ":***" + Suffix(parts[1], 3);
      assert MaskSensitiveData(data) == Prefix(parts[0], 3) + Stars + tail;
      ContainsInfix(Prefix(parts[0], 3), Stars, tail);
    } else {
      ContainsInfix(data[..3], Stars, data[|data| - 3..]);
    }
  }

  // ---------------------------------------------------------------------------
  // Saving the Telegram settings

  datatype SaveStatus = MissingValue | MaskedValue | SettingsSaved

  /** saveTelegramSettings's checks on the trimmed inputs, in their order. */
  function SaveVerdict(tokenInput: string, chatInput: string): SaveStatus
  {
    var botToken := Trim(tokenInput);
    var chatId := Trim(chatInput);
    if botToken == "" || chatId == "" then MissingValue
    else if Contains(botToken, Stars) || Contains(chatId, Stars) then MaskedValue
    else SettingsSaved
  }

  /** A value is missing exactly when its input is blank; saved settings are trimmed,
      carry no marker, and are enough for the checker to run a cycle. */
  lemma SaveVerdictMeaning(tokenInput: string, chatInput: string)
    ensures SaveVerdict(tokenInput, chatInput) == MissingValue <==> Blank(tokenInput) || Blank(chatInput)
    ensures SaveVerdict(tokenInput, chatInput) == SettingsSaved ==>
      var saved := Credentials(Trim(tokenInput), Trim(chatInput));
      && saved.Configured()
      && Trim(saved.botToken) == saved.botToken && Trim(saved.chatId) == saved.chatId
      && !Contains(saved.botToken, Stars) && !Contains(saved.chatId, Stars)
  {
    var botToken := Trim(tokenInput);
    var chatId := Trim(chatInput);
    assert botToken == "" <==> Blank(tokenInput);
    assert chatId == "" <==> Blank(chatInput);
    TrimIdempotent(tokenInput);
    TrimIdempotent(chatInput);
  }

  /** Saving the form while it still shows a masked token of 8 or more characters (as the
      popup fills it in) is refused, so the mask never overwrites the real value. */
  lemma MaskedTokenNotSaved(storedToken: string, chatInput: string)
    requires |storedToken| >= 8
    ensures SaveVerdict(MaskSensitiveData(storedToken), chatInput) != SettingsSaved
  {
    var m := MaskSensitiveData(storedToken);
    MaskCarriesStars(storedToken);
    ContainsSurvivesTrim(m, Stars);
  }

  /** The same for a masked chat id. */
  lemma MaskedChatIdNotSaved(tokenInput: string, storedChatId: string)
    requires |storedChatId| >= 8
    ensures SaveVerdict(tokenInput, MaskSensitiveData(storedChatId)) != SettingsSaved
  {
    var m := MaskSensitiveData(storedChatId);
    MaskCarriesStars(storedChatId);
    ContainsSurvivesTrim(m, Stars);
  }

  /** saveTelegramSettings: the synced settings change only when both checks pass. */
  method SaveTelegramSettings(b: Browser, tokenInput: string, chatInput: string) returns (status: SaveStatus)
    modifies b
    ensures status == SaveVerdict(tokenInput, chatInput)
    ensures b.credentials ==
      if status == SettingsSaved then Credentials(Trim(tokenInput), Trim(chatInput)) else old(b.credentials)
    ensures b.stockAlerts == old(b.stockAlerts) && b.alarms == old(b.alarms)
    ensures b.network == old(b.network)
  {
    var botToken := Trim(tokenInput);
    var chatId := Trim(chatInput);
    if botToken == "" || chatId == "" {
      return MissingValue;
    }
    if Contains(botToken, Stars) || Contains(chatId, Stars) {
      return MaskedValue;
    }
    b.credentials := Credentials(botToken, chatId);
    status := SettingsSaved;
  }

  // ---------------------------------------------------------------------------
  // Adding and deleting alerts

  datatype AddStatus = InvalidInput | DuplicateAlert | AlertAdded

  /** The symbol as stored: trimmed, then upper-cased. */
  function NormalizeSymbol(input: string): string
  {
    ToUpper(Trim(input))
  }

  /** A stored symbol is in normal form, and it is empty exactly when the input was blank. */
  lemma NormalizeSymbolStable(input: string)
    ensures NormalizeSymbol(NormalizeSymbol(input)) == NormalizeSymbol(input)
    ensures NormalizeSymbol(input) == "" <==> Blank(input)
    ensures forall i :: 0 <= i < |NormalizeSymbol(input)| ==> !IsLower(NormalizeSymbol(input)[i])
  {
    var t := Trim(input);
    var u := ToUpper(t);
    assert NormalizeSymbol(input) == u;
    assert u == "" <==> t == "";
    TrimIdempotent(input);
    TrimToUpperOfTrimmed(t);
    assert Trim(u) == u;
    ToUpperIdempotent(t);
    assert NormalizeSymbol(u) == ToUpper(Trim(u)) == ToUpper(u) == u;
  }

  /** `!price || price <= 0` rejects a price that did not parse (None), zero and a
      negative one. */
  predicate ValidPrice(price: Option<real>)
  {
    price.Some? && price.value != 0.0 && !(price.value <= 0.0)
  }

  /** addAlert's checks, in their order: the inputs, then the (symbol, type) pair. */
  function AddVerdict(alerts: seq<Alert>, symbolInput: string, price: Option<real>, kind: string): AddStatus
  {
    var symbol := NormalizeSymbol(symbolInput);
    if symbol == "" || !ValidPrice(price) then InvalidInput
    else if HasPair(alerts, symbol, kind) then DuplicateAlert
    else AlertAdded
  }

  /** The inputs are refused exactly for a blank symbol or a price that is not positive;
      otherwise a pair already stored is refused; only a new pair is added. */
  lemma AddVerdictMeaning(alerts: seq<Alert>, symbolInput: string, price: Option<real>, kind: string)
    ensures AddVerdict(alerts, symbolInput, price, kind) == InvalidInput <==>
      Blank(symbolInput) || !(price.Some? && price.value > 0.0)
    ensures AddVerdict(alerts, symbolInput, price, kind) == DuplicateAlert <==>
      !Blank(symbolInput) && price.Some? && price.value > 0.0 &&
      exists a :: a in alerts && a.symbol == NormalizeSymbol(symbolInput) && a.kind == kind
  {
    NormalizeSymbolStable(symbolInput);
  }

  /** The alert addAlert stores. */
  function NewAlert(symbolInput: string, price: Option<real>, kind: string, id: int, created: string): Alert
    requires price.Some?
  {
    Alert(id, NormalizeSymbol(symbolInput), price.value, kind, created)
  }

  /** Adding keeps the (symbol, type) pairs unique, and keeps the ids unique when the new
      id is not in use; the new alert has a positive price and a normalised symbol. */
  lemma AddKeepsUnique(alerts: seq<Alert>, symbolInput: string, price: Option<real>, kind: string, id: int, created: string)
    requires AddVerdict(alerts, symbolInput, price, kind) == AlertAdded
    ensures var a := NewAlert(symbolInput, price, kind, id, created);
      && (UniquePairs(alerts) ==> UniquePairs(alerts + [a]))
      && (UniqueIds(alerts) && (forall b :: b in alerts ==> b.id != id) ==> UniqueIds(alerts + [a]))
      && a.price > 0.0 && a.symbol != "" && NormalizeSymbol(a.symbol) == a.symbol
  {
    var a := NewAlert(symbolInput, price, kind, id, created);
    UniquePairsAppend(alerts, a);
    UniqueIdsAppend(alerts, a);
    NormalizeSymbolStable(symbolInput);
  }

  /** Once an alert is stored through the popup, typing its symbol again in any case and
      with any surrounding spaces, for the same type, is refused as a duplicate. */
  lemma ReaddIsDuplicate(alerts: seq<Alert>, symbolInput: string, price: Option<real>, kind: string,
                         id: int, created: string, retyped: string, price2: Option<real>)
    requires AddVerdict(alerts, symbolInput, price, kind) == AlertAdded
    requires NormalizeSymbol(retyped) == NormalizeSymbol(symbolInput)
    requires ValidPrice(price2)
    ensures AddVerdict(alerts + [NewAlert(symbolInput, price, kind, id, created)], retyped, price2, kind) == DuplicateAlert
  {
    var a := NewAlert(symbolInput, price, kind, id, created);
    assert a in alerts + [a];
  }

  /** addAlert: on success the new alert is appended, earlier entries untouched, and the
      background checker is asked to start monitoring (which re-arms its alarm); on a
      refusal nothing changes. */
  method AddAlert(b: Browser, symbolInput: string, price: Option<real>, kind: string, id: int, created: string)
    returns (status: AddStatus)
    modifies b
    ensures status == AddVerdict(old(b.stockAlerts), symbolInput, price, kind)
    ensures status == AlertAdded ==>
      b.stockAlerts == old(b.stockAlerts) + [NewAlert(symbolInput, price, kind, id, created)] &&
      b.alarms == Background.Rearm(old(b.alarms))
    ensures status != AlertAdded ==> b.stockAlerts == old(b.stockAlerts) && b.alarms == old(b.alarms)
    ensures b.credentials == old(b.credentials) && b.network == old(b.network)
  {
    var symbol := NormalizeSymbol(symbolInput);
    if symbol == "" || price.None? || price.value == 0.0 || price.value <= 0.0 {
      return InvalidInput;
    }
    var alert := Alert(id, symbol, price.value, kind, created);
    var alerts := b.stockAlerts;
    var existing := exists a :: a in alerts && a.symbol == symbol && a.kind == kind;
    if existing {
      return DuplicateAlert;
    }
    alerts := alerts + [alert];
    b.stockAlerts := alerts;
    status := AlertAdded;
    var _ := Background.OnMessage(b, Background.StartMonitoring);
  }

  /** deleteAlert: load the list, drop every entry with this id, save. */
  method DeleteAlert(b: Browser, id: int)
    modifies b
    ensures b.stockAlerts == WithoutId(old(b.stockAlerts), id)
    ensures b.credentials == old(b.credentials) && b.alarms == old(b.alarms)
    ensures b.network == old(b.network)
  {
    var alerts := b.stockAlerts;
    var updated := WithoutId(alerts, id);
    b.stockAlerts := updated;
  }
}
