/**
 * The settings editor: an Elm-style application whose `update` reducer turns
 * one `Message` into an in-place change of the application state.
 *
 * `Reduce` is the specification of one message; the class `App` holds the
 * state as fields and its `Update` method performs the same assignments the
 * reducer does, proved equal to `Reduce`. Saving the settings and listing the
 * MIDI devices are foreign effects: their outcomes are the `Effects` given to
 * each message.
 */
module Gui {
  import opened Prim

  /** The theme choice stored in the settings. */
  datatype ThemeType = Light | Dark

  /** The GUI toolkit's theme. `CustomTheme` is never produced by this program. */
  datatype Theme = LightTheme | DarkTheme | CustomTheme

  /**
   * The user settings edited by the GUI. `port`, `relayPort` and
   * `relayAddress` are optional, as the GUI code treats them.
   */
  datatype Settings = Settings(
    name: Option<string>,
    ipAddresses: seq<string>,
    port: Option<u16>,
    midiDevice: Option<string>,
    relayAddress: Option<string>,
    relayPort: Option<u16>,
    theme: Option<ThemeType>)

  /** The messages the settings window sends to its reducer. */
  datatype Message =
    | SettingsChanged(newSettings: Settings)
    | RelayPortChanged(relayPort: u16)
    | Connect
    | ReloadMidiDevices
    | SaveSettings
    | RemoveAddress(ip: string)
    | AddAddress
    | AddressInputChanged(input: string)
    | AppPortChanged(appPort: u16)
    | ResetSettings

  /**
   * What the outside world answers while one message is handled: the outcome
   * of writing the settings file (the path written, or the error text) and
   * the current list of MIDI device names.
   */
  datatype Effects = Effects(saveResult: Result<string, string>, midiList: seq<string>)

  /** One message together with the effects observed while handling it. */
  datatype Input = Input(msg: Message, fx: Effects)

  /** The application state, as one value. */
  datatype AppState = AppState(
    initialSettings: Settings,
    settings: Settings,
    errorMessage: Option<string>,
    infoMessage: Option<string>,
    midiDevices: seq<string>,
    addressInput: string)

  /** Maps the stored theme choice to the toolkit theme; no choice means Light. */
  function ToIcedTheme(theme: Option<ThemeType>): (r: Theme)
    ensures r != CustomTheme
    ensures r == DarkTheme <==> theme == Some(Dark)
    ensures r == LightTheme <==> theme != Some(Dark)
  {
    match theme
    case Some(Light) => LightTheme
    case Some(Dark) => DarkTheme
    case _ => LightTheme
  }

  /**
   * The mapping back from toolkit theme to theme choice that the settings
   * window uses to mark the selected radio button; a custom theme is an
   * unimplemented case there, here `None`.
   */
  function FromIcedTheme(theme: Theme): (r: Option<ThemeType>)
    ensures r.None? <==> theme == CustomTheme
  {
    match theme
    case LightTheme => Some(Light)
    case DarkTheme => Some(Dark)
    case CustomTheme => None
  }

  /** Every theme choice survives the round trip, so the unimplemented custom case is unreachable. */
  lemma ThemeRoundTrip(theme: Option<ThemeType>)
    ensures FromIcedTheme(ToIcedTheme(theme)).Some?
    ensures theme.Some? ==> FromIcedTheme(ToIcedTheme(theme)) == theme
    ensures theme.None? ==> FromIcedTheme(ToIcedTheme(theme)) == Some(Light)
  {
  }

  /** The index of the first element equal to `x`, as `Iterator::position` finds it. */
  function Position<T(==)>(xs: seq<T>, x: T): (r: Option<nat>)
    ensures r.None? <==> x !in xs
    ensures r.Some? ==> r.value < |xs| && xs[r.value] == x
    ensures r.Some? ==> forall j :: 0 <= j < r.value ==> xs[j] != x
  {
    if |xs| == 0 then None
    else if xs[0] == x then Some(0)
    else
      match Position(xs[1..], x)
      case None => None
      case Some(i) => Some(i + 1)
  }

  /** `Vec::remove`: drops the element at `i`, shifting the later ones down. */
  function RemoveAt<T>(xs: seq<T>, i: nat): (r: seq<T>)
    requires i < |xs|
    ensures |r| == |xs| - 1
    ensures forall j :: 0 <= j < i ==> r[j] == xs[j]
    ensures forall j :: i <= j < |r| ==> r[j] == xs[j + 1]
    ensures multiset(r) == multiset(xs) - multiset{xs[i]}
  {
    assert xs == xs[..i] + [xs[i]] + xs[i + 1..];
    xs[..i] + xs[i + 1..]
  }

  /** Removes the first occurrence of `x`, if there is one. */
  function RemoveFirst<T(==)>(xs: seq<T>, x: T): (r: seq<T>)
    ensures x !in xs ==> r == xs
    ensures x in xs ==> |r| == |xs| - 1
    ensures multiset(r) == multiset(xs) - multiset{x}
  {
    match Position(xs, x)
    case None => xs
    case Some(i) => RemoveAt(xs, i)
  }

  /** The first occurrence, and only it, is gone; the other elements keep their order. */
  lemma RemoveFirstSplits<T>(xs: seq<T>, x: T)
    requires x in xs
    ensures var k := Position(xs, x).value;
            k < |xs| && xs[k] == x && x !in xs[..k] && RemoveFirst(xs, x) == xs[..k] + xs[k + 1..]
  {
  }

  /** The informational text after a successful save: a fixed prefix, then the path in quotes, as `{:?}` formats it. */
  function SavedInfo(path: string): (r: string)
    ensures |r| == |path| + 20
    ensures r[..18] == "Saved settings to " && r[18] == '"' && r[|r| - 1] == '"'
    ensures r[19..|r| - 1] == path
  {
    "Saved settings to \"" + path + "\""
  }

  /** The error text after a failed save: a fixed prefix, then the error's text. */
  function SaveErrorText(error: string): (r: string)
    ensures |r| == |error| + 23
    ensures r[..23] == "Error saving settings: "
    ensures r[23..] == error
  {
    "Error saving settings: " + error
  }

  /**
   * The state `App::new` builds from the flag settings and the MIDI device
   * list: both settings copies are the flag settings, so `ResetSettings`
   * changes nothing yet; no messages; an empty input.
   */
  function Init(flagSettings: Settings, midiDevices: seq<string>): (r: AppState)
    ensures r.initialSettings == flagSettings && r.settings == flagSettings
    ensures forall fx :: Reduce(r, ResetSettings, fx) == r
    ensures r.errorMessage.None? && r.infoMessage.None? && r.addressInput == "" && r.midiDevices == midiDevices
  {
    AppState(flagSettings, flagSettings, None, None, midiDevices, "")
  }

  /**
   * The reducer: the state after handling one message. No message touches
   * the initial settings or clears a shown error; only `SaveSettings` changes
   * the messages, only `ReloadMidiDevices` the device list, and only
   * `AddAddress` and `AddressInputChanged` the address input.
   */
  function Reduce(s: AppState, msg: Message, fx: Effects): (r: AppState)
    ensures r.initialSettings == s.initialSettings
    ensures s.errorMessage.Some? ==> r.errorMessage.Some?
    ensures !msg.SaveSettings? ==> r.errorMessage == s.errorMessage && r.infoMessage == s.infoMessage
    ensures !msg.ReloadMidiDevices? ==> r.midiDevices == s.midiDevices
    ensures !(msg.AddAddress? || msg.AddressInputChanged?) ==> r.addressInput == s.addressInput
  {
    match msg
    case Connect => s
    case ReloadMidiDevices => s.(midiDevices := fx.midiList)
    case SettingsChanged(n) => s.(settings := n)
    case RelayPortChanged(i) => s.(settings := s.settings.(relayPort := Some(i)))
    case RemoveAddress(ip) =>
      s.(settings := s.settings.(ipAddresses := RemoveFirst(s.settings.ipAddresses, ip)))
    case AddAddress =>
      // The input is cleared first, and the cleared input is what is appended.
      var input := "";
      s.(addressInput := input, settings := s.settings.(ipAddresses := s.settings.ipAddresses + [input]))
    case AddressInputChanged(t) => s.(addressInput := t)
    case AppPortChanged(p) => s.(settings := s.settings.(port := Some(p)))
    case SaveSettings =>
      match fx.saveResult {
        case Ok(path) => s.(infoMessage := Some(SavedInfo(path)))
        case Err(e) => s.(errorMessage := Some(SaveErrorText(e)), infoMessage := None)
      }
    case ResetSettings => s.(settings := s.initialSettings)
  }

  /** The state after handling a sequence of messages in order. */
  function ReduceAll(s: AppState, inputs: seq<Input>): AppState
    decreases |inputs|
  {
    if inputs == [] then s else ReduceAll(Reduce(s, inputs[0].msg, inputs[0].fx), inputs[1..])
  }

  /** `RemoveAddress(ip)` removes exactly the first entry equal to `ip`, keeps the others in order, and changes nothing else. */
  lemma RemoveAddressRemovesFirst(s: AppState, ip: string, fx: Effects)
    requires ip in s.settings.ipAddresses
    ensures var xs := s.settings.ipAddresses;
            var k := Position(xs, ip).value;
            k < |xs| && xs[k] == ip && ip !in xs[..k] &&
            Reduce(s, RemoveAddress(ip), fx) == s.(settings := s.settings.(ipAddresses := xs[..k] + xs[k + 1..]))
  {
    RemoveFirstSplits(s.settings.ipAddresses, ip);
  }

  /** `RemoveAddress(ip)` with `ip` absent from the list leaves the whole state unchanged. */
  lemma RemoveAddressAbsent(s: AppState, ip: string, fx: Effects)
    requires ip !in s.settings.ipAddresses
    ensures Reduce(s, RemoveAddress(ip), fx) == s
  {
  }

  /**
   * `AddAddress` empties the input and grows the list by exactly one entry,
   * the empty string, whatever the input held; earlier entries are untouched.
   */
  lemma AddAddressAppendsEmpty(s: AppState, fx: Effects)
    ensures var r := Reduce(s, AddAddress, fx);
            var xs := s.settings.ipAddresses;
            && r.addressInput == ""
            && |r.settings.ipAddresses| == |xs| + 1
            && r.settings.ipAddresses[..|xs|] == xs
            && r.settings.ipAddresses[|xs|] == ""
            && r.(addressInput := s.addressInput, settings := s.settings) == s
            && r.settings.(ipAddresses := xs) == s.settings
  {
  }

  /** The text typed into the address input has no influence on what `AddAddress` does. */
  lemma AddAddressIgnoresInput(s: AppState, typed: string, fx: Effects)
    ensures Reduce(s.(addressInput := typed), AddAddress, fx) == Reduce(s, AddAddress, fx)
  {
  }

  /** The two port messages set their own port field to `Some` of the new value and nothing else. */
  lemma PortMessagesSetOnlyTheirField(s: AppState, p: u16, fx: Effects)
    ensures var r := Reduce(s, RelayPortChanged(p), fx);
            r.settings.relayPort == Some(p) && r.settings.(relayPort := s.settings.relayPort) == s.settings &&
            r.(settings := s.settings) == s
    ensures var r := Reduce(s, AppPortChanged(p), fx);
            r.settings.port == Some(p) && r.settings.(port := s.settings.port) == s.settings &&
            r.(settings := s.settings) == s
  {
  }

  /** `Connect` does nothing; `AddressInputChanged(t)` changes only the address input. */
  lemma ConnectAndInputChange(s: AppState, t: string, fx: Effects)
    ensures Reduce(s, Connect, fx) == s
    ensures var r := Reduce(s, AddressInputChanged(t), fx);
            r.addressInput == t && r.(addressInput := s.addressInput) == s
  {
  }

  /**
   * `SettingsChanged(n)` replaces the whole settings with `n`, and
   * `ReloadMidiDevices` replaces the device list with the current listing;
   * neither changes anything else.
   */
  lemma SettingsChangedAndReload(s: AppState, n: Settings, fx: Effects)
    ensures Reduce(s, SettingsChanged(n), fx) == s.(settings := n)
    ensures Reduce(s, ReloadMidiDevices, fx) == s.(midiDevices := fx.midiList)
  {
  }

  /** `ResetSettings` puts the initial settings back and changes nothing else. */
  lemma ResetRestoresInitial(s: AppState, fx: Effects)
    ensures var r := Reduce(s, ResetSettings, fx);
            r.settings == s.initialSettings && r.(settings := s.settings) == s
  {
  }

  /**
   * `SaveSettings`: on success an information message is shown and the error
   * message is left alone; on failure an error message is shown and the
   * information message is cleared.
   */
  lemma SaveSettingsOutcome(s: AppState, fx: Effects)
    ensures var r := Reduce(s, SaveSettings, fx);
            fx.saveResult.Ok? ==>
              r.infoMessage == Some(SavedInfo(fx.saveResult.value)) && r.errorMessage == s.errorMessage && r.(infoMessage := s.infoMessage) == s
    ensures var r := Reduce(s, SaveSettings, fx);
            fx.saveResult.Err? ==>
              r.errorMessage == Some(SaveErrorText(fx.saveResult.error)) && r.infoMessage.None? && r.(errorMessage := s.errorMessage, infoMessage := s.infoMessage) == s
  {
  }

  /** Over any sequence of messages the initial settings never change and a shown error is never cleared. */
  lemma {:induction false} ReduceAllKeepsInitialAndErrors(s: AppState, inputs: seq<Input>)
    ensures ReduceAll(s, inputs).initialSettings == s.initialSettings
    ensures s.errorMessage.Some? ==> ReduceAll(s, inputs).errorMessage.Some?
    decreases |inputs|
  {
    if inputs != [] {
      ReduceAllKeepsInitialAndErrors(Reduce(s, inputs[0].msg, inputs[0].fx), inputs[1..]);
    }
  }

  /** After any history, `ResetSettings` restores exactly the settings the application was started with. */
  lemma ResetAfterAnyHistory(flagSettings: Settings, midiDevices: seq<string>, inputs: seq<Input>, fx: Effects)
    ensures Reduce(ReduceAll(Init(flagSettings, midiDevices), inputs), ResetSettings, fx).settings == flagSettings
  {
    ReduceAllKeepsInitialAndErrors(Init(flagSettings, midiDevices), inputs);
  }

  /** The settings window: its state lives in fields that each message updates in place. */
  class App {
    var initialSettings: Settings
    /** The settings being edited (the settings inside the application flags). */
    var settings: Settings
    var errorMessage: Option<string>
    var infoMessage: Option<string>
    var midiDevices: seq<string>
    var addressInput: string

    /** The fields, as one value. */
    function State(): AppState
      reads this
    {
      AppState(initialSettings, settings, errorMessage, infoMessage, midiDevices, addressInput)
    }

    /** `App::new`: both settings copies come from the flags; no messages; empty input. */
    constructor (flagSettings: Settings, midiList: seq<string>)
      ensures State() == Init(flagSettings, midiList)
      ensures initialSettings == settings == flagSettings
      ensures errorMessage.None? && infoMessage.None? && addressInput == ""
    {
      initialSettings := flagSettings;
      settings := flagSettings;
      midiDevices := midiList;
      errorMessage := None;
      infoMessage := None;
      addressInput := "";
    }

    /** The toolkit theme for the current settings; never a custom theme. */
    function AppTheme(): (t: Theme)
      reads this
      ensures t != CustomTheme
      ensures t == DarkTheme <==> settings.theme == Some(Dark)
    {
      ToIcedTheme(settings.theme)
    }

    /** `App::update`: handles one message by assigning the fields it concerns. */
    method Update(msg: Message, fx: Effects)
      modifies this
      ensures State() == Reduce(old(State()), msg, fx)
      ensures initialSettings == old(initialSettings)
      ensures old(errorMessage).Some? ==> errorMessage.Some?
    {
      match msg
      case Connect =>
      case ReloadMidiDevices =>
        midiDevices := fx.midiList;
      case SettingsChanged(n) =>
        settings := n;
      case RelayPortChanged(i) =>
        settings := settings.(relayPort := Some(i));
      case RemoveAddress(ip) =>
        var idx := Position(settings.ipAddresses, ip);
        if idx.Some? {
          settings := settings.(ipAddresses := RemoveAt(settings.ipAddresses, idx.value));
        }
      case AddAddress =>
        addressInput := "";
        settings := settings.(ipAddresses := settings.ipAddresses + [addressInput]);
      case AddressInputChanged(t) =>
        addressInput := t;
      case AppPortChanged(p) =>
        settings := settings.(port := Some(p));
      case SaveSettings =>
        match fx.saveResult {
          case Ok(path) =>
            infoMessage := Some(SavedInfo(path));
          case Err(e) =>
            errorMessage := Some(SaveErrorText(e));
            infoMessage := None;
        }
      case ResetSettings =>
        settings := initialSettings;
    }
  }
}
