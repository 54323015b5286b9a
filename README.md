# p2pmidi core, modelled in Dafny

p2pmidi connects MIDI devices across machines over libp2p. This project models two parts of it.

**The settings window's reducer** (`src/gui.rs`). This is an Elm-style application. Its state has six parts: the settings being edited, the initial settings, the text of the address input, the MIDI device list, and the info and error messages. Messages edit the settings, the address input, the device list and the two messages. No message changes the initial settings. Module `Gui` holds:
- `Reduce`, the reducer as a pure function over an `AppState` value;
- `ReduceAll`, which folds `Reduce` over a sequence of messages;
- the class `App`, whose fields are the application's fields. Its `Update` method makes the same in-place assignments as `App::update` and is proved equal to `Reduce`.

The settings file write and the MIDI port listing are foreign. Their outcomes come in as an `Effects` value with each message.

`AddAddress` empties the address input before it pushes that input onto the list. So it always appends the empty string, whatever was typed. The model keeps this behaviour and proves it (`AddAddressAppendsEmpty`, `AddAddressIgnoresInput`).

In `src/settings.rs:56-69`, `port`, `relay_port` and `relay_address` are plain values. The GUI code treats them as `Option`s: it assigns `Some(..)` at `src/gui.rs:110,134`, reads `port` with `unwrap_or(0)` at `src/gui.rs:202`, and unwraps `relay_address` and `relay_port` at `src/gui.rs:290,304`. The model follows the GUI and makes all three optional.

**The peer client** (`src/p2p/client.rs`). Module `Client` models four things:
- the 32 bytes of key material derived from a one-byte seed;
- the two listen multiaddresses, built segment by segment;
- the listen order: TCP first, then QUIC, stopping at the first refusal;
- one step of the event loop, plus finite runs of steps. An identify `Received` event adds the address the remote peer observed to the swarm's set of external addresses.

The class `Swarm` holds the listeners, the listen attempts and the external address set. Whether the transport accepts a listen address is abstract: it is a map, fixed when the swarm is built, from each refused address to the error the transport reports for it.

`src/p2p/client.rs` creates libp2p's relay-server behaviour (`src/p2p/client.rs:44`), whose logic is foreign, but has no relay, reservation, circuit-dialing or hole-punching logic of its own and no handshake phase. Its loop adds every identify-observed address for the whole run.

## Model

| member | source | states |
|---|---|---|
| `Gui.ToIcedTheme` | src/gui.rs:44-50 | `Some(Dark)` gives the dark theme. `Some(Light)` and `None` give the light theme. A custom theme is never produced. |
| `Gui.FromIcedTheme` | src/gui.rs:160-165 | The window's mapping back from toolkit theme to theme choice has no answer (the `todo!()`) exactly for a custom theme. |
| `Gui.ThemeRoundTrip` | src/gui.rs:44-50 | Mapping a theme choice to the toolkit theme and back returns the choice (no choice comes back as Light). So the unimplemented custom case is never reached. |
| `Gui.App.AppTheme` | src/gui.rs:352-354 | The application's theme is never custom. It is dark exactly when the settings choose Dark. |
| `Gui.Init` | src/gui.rs:81-94 | The starting state holds the flag settings as both the settings and the initial settings, so `ResetSettings` changes nothing in it. It has no messages, an empty input and the given device list. |
| `Gui.Reduce` | src/gui.rs:100-150 | One message never changes the initial settings and never clears a shown error. Only `SaveSettings` changes the messages, only `ReloadMidiDevices` the device list, and only `AddAddress` and `AddressInputChanged` the address input. |
| `Gui.SavedInfo` | src/gui.rs:138 | The success text is "Saved settings to " followed by the path between double quotes, so the path can be read back from it. |
| `Gui.SaveErrorText` | src/gui.rs:140 | The failure text is "Error saving settings: " followed by the error's text. |
| `Gui.Position` | src/gui.rs:113-118 | `None` exactly when the element is absent. Otherwise it is an index holding the element, with no earlier occurrence. |
| `Gui.RemoveAt` | src/gui.rs:120 | `Vec::remove(i)` shortens the list by one. Elements before `i` stay in place and later ones shift down by one. The multiset loses exactly the removed element. |
| `Gui.RemoveFirst` | src/gui.rs:112-121 | Removing by value leaves an absent value's list unchanged and otherwise shortens it by one. The multiset loses exactly one copy of the value. |
| `Gui.RemoveFirstSplits` | src/gui.rs:112-121 | When the value is present, the result is the list with its first occurrence cut out and the other elements in their original order. |
| `Gui.RemoveAddressRemovesFirst` | src/gui.rs:112-121 | `RemoveAddress(ip)` with `ip` present removes exactly the first entry equal to `ip` and changes no other part of the state. |
| `Gui.RemoveAddressAbsent` | src/gui.rs:113-121 | `RemoveAddress(ip)` with `ip` absent leaves the whole state unchanged. |
| `Gui.AddAddressAppendsEmpty` | src/gui.rs:123-129 | `AddAddress` empties the input and grows the list by exactly one entry, the empty string. Earlier entries and the rest of the state are untouched. |
| `Gui.AddAddressIgnoresInput` | src/gui.rs:123-128 | The result of `AddAddress` does not depend on what was typed into the address input. |
| `Gui.PortMessagesSetOnlyTheirField` | src/gui.rs:109-135 | `RelayPortChanged(i)` sets `relay_port` to `Some(i)` and `AppPortChanged(p)` sets `port` to `Some(p)`. No other settings field or application field changes. |
| `Gui.ConnectAndInputChange` | src/gui.rs:102-132 | `Connect` leaves the state unchanged. `AddressInputChanged(s)` sets the address input to `s` and changes nothing else. |
| `Gui.SettingsChangedAndReload` | src/gui.rs:103-108 | `SettingsChanged(n)` replaces the whole settings with `n` and changes nothing else. `ReloadMidiDevices` replaces the device list with the current MIDI listing and changes nothing else. |
| `Gui.ResetRestoresInitial` | src/gui.rs:145-147 | `ResetSettings` makes the settings equal to the initial settings and changes nothing else. |
| `Gui.SaveSettingsOutcome` | src/gui.rs:136-144 | On a successful save, the info message becomes the saved-path text and the error message is kept. On a failed save, the error message becomes the error text and the info message is cleared. Nothing else changes either way. |
| `Gui.ReduceAllKeepsInitialAndErrors` | src/gui.rs:100-150 | Over any sequence of messages, the initial settings never change and an error message, once shown, is never cleared. |
| `Gui.ResetAfterAnyHistory` | src/gui.rs:81-147 | After any sequence of messages from the initial state, `ResetSettings` restores exactly the settings the application was started with. |
| `Gui.App.constructor` | src/gui.rs:81-94 | `App::new` copies the flag settings into both the settings and the initial settings. It stores the device list, sets no messages and leaves the input empty. |
| `Gui.App.Update` | src/gui.rs:100-150 | Handling a message updates the fields exactly as the reducer says. The initial settings are unchanged and an existing error message stays. |
| `Client.With` | src/p2p/client.rs:55-69 | `Multiaddr::with` returns the address extended by exactly one segment, the given one, at its end. |
| `Client.UnspecifiedIp` | src/p2p/client.rs:56-59 | The IP segment is IPv6 exactly when IPv6 is chosen and IPv4 otherwise. Either way it is the unspecified address. |
| `Client.TcpListenAddr` | src/p2p/client.rs:55-60 | The TCP listen address has two segments: the unspecified IP, IPv6 exactly when IPv6 is chosen, then `Tcp(port)`. |
| `Client.QuicListenAddr` | src/p2p/client.rs:63-69 | The QUIC listen address has three segments: the unspecified IP, IPv6 exactly when IPv6 is chosen, then `Udp(port)`, then `QuicV1`. |
| `Client.ListenAddrsAgree` | src/p2p/client.rs:55-69 | Both listen addresses share the IP segment and the port, and they are different addresses. |
| `Client.Ed25519FromBytes` | src/p2p/client.rs:106 | Building a keypair from secret bytes fails exactly when the length is not 32. On success the keypair holds those bytes. |
| `Client.SeedMaterial` | src/p2p/client.rs:103-104 | The key material has 32 bytes: byte 0 is the seed and bytes 1 to 31 are zero. |
| `Client.SeedMaterialInjective` | src/p2p/client.rs:102-106 | Two seeds give the same key material, and the same keypair, exactly when they are equal. |
| `Client.GenerateEd25519` | src/p2p/client.rs:102-107 | The keypair's secret has 32 bytes: the seed at byte 0 and zeros after it. The length check cannot fail, so the `expect` never fires. |
| `Client.AfterEvent` | src/p2p/client.rs:74-89 | One event never removes an external address. It adds the observed address of an identify `Received` event, and nothing else. Any other event leaves the set unchanged. |
| `Client.AfterEvents` | src/p2p/client.rs:72-92 | Handling a sequence of events never removes an external address. |
| `Client.AfterEventExactly` | src/p2p/client.rs:74-89 | An identify `Received` event adds exactly its observed address. Every other event leaves the external address set alone, including an identify `Pushed` event that carries an observed address. |
| `Client.AfterEventsConcat` | src/p2p/client.rs:72-92 | Handling two event sequences one after the other is the same as handling their concatenation. |
| `Client.AfterEventsGrows` | src/p2p/client.rs:72-92 | The external address set at a later point of the event stream contains the set at any earlier point. |
| `Client.AfterEventsContents` | src/p2p/client.rs:74-89 | After a sequence of events, an address is external exactly when it was external before or some identify `Received` event in the sequence reported it as observed. |
| `Client.Swarm.constructor` | src/p2p/client.rs:52 | A new swarm has the given key, no listeners, no listen attempts and no external addresses. |
| `Client.Swarm.ListenOn` | src/p2p/client.rs:61 | Every call is recorded as an attempt. It succeeds exactly when the transport accepts the address, and on success it appends a new listener. On failure it returns the transport's own error unchanged and leaves the listeners unchanged. |
| `Client.Swarm.AddExternalAddress` | src/p2p/client.rs:81 | The address is added to the external address set. Nothing is removed. |
| `Client.Swarm.HandleEvent` | src/p2p/client.rs:74-90 | One turn of the loop changes the external address set exactly as `AfterEvent` says, so the set never shrinks. |
| `Client.Swarm.RunEvents` | src/p2p/client.rs:72-92 | Running the loop over a sequence of events leaves the external address set equal to `AfterEvents` of its old value. |
| `Client.StartClient` | src/p2p/client.rs:18-70 | The swarm's key is derived from the seed. Listening is requested on TCP first, then on QUIC. If TCP is refused, the transport's error for it is returned and QUIC is never attempted. If QUIC is refused, the transport's error for it is returned. Otherwise both listeners exist and the event loop runs. |

## Left out

- `App::view`, `style`, `subscription`, `scale_factor`, `title` and `run_app` (src/gui.rs:34-42, 96-98, 152-351, 356-366) are widget layout and toolkit glue, with a floating-point scale factor. The only logic taken from `view` is its theme-to-choice match (`FromIcedTheme`).
- The MIDI device list that `ReloadMidiDevices` and `App::new` store (src/gui.rs:82, 104) is an arbitrary input (`Effects.midiList` and the constructor's argument). The `get_midi_list(&MidiOutput)` returning a `Vec<String>` that gui.rs calls is not part of this model. src/midi.rs:23-35 has a private `get_midi_list` of a different shape, returning `Result<Vec<String>, String>`; its `Err` path has no counterpart here. The `midi_output` handle inside the application flags is not modelled.
- `Settings::save` (src/settings.rs:78-96) is modelled only by its outcome, an arbitrary `Ok(path)` or `Err(text)`. YAML serialisation, tilde expansion and file-system writes are not modelled. Neither are configuration parsing, clap, the skim prompt or the terminal check in src/settings.rs.
- The info message after a save quotes the path as Rust's `{:?}` does. The escaping that `{:?}` applies to quotes, backslashes and control characters inside the path is not modelled.
- The payload of the toolkit's custom theme is not modelled. It is a single `CustomTheme` case.
- Transport construction (src/p2p/client.rs:24-52) is not modelled: TCP with noise and yamux, QUIC, their combination, and the relay, ping and identify behaviours. These are foreign libp2p calls. Whether `listen_on` succeeds, and with which error, is a fixed map from refused addresses to errors. Errors other than an unsupported address, such as a port already in use, are one opaque `Other(reason)` case.
- Client.Swarm.ListenOn: returns the new listener's index in the listener list as its identifier. libp2p's `ListenerId` is an opaque unique value; only its uniqueness is captured by the index.
- Ed25519 public key derivation and `PeerId::from` (src/p2p/client.rs:21) are foreign cryptography. A keypair is represented by its secret bytes, and peer identifiers are opaque values.
- Printing of the peer id, of events and of new listen addresses is not modelled.
- The endless `block_on` loop over the swarm's event stream (src/p2p/client.rs:72-92) is modelled over a finite prefix of events. `StartClient` then reports `Running` where the real function never returns.
- Client.StartClient: does not state the key's public half or peer id, because both are opaque here.
- src/main.rs is dispatch code that calls functions not present in the other files. src/constants.rs holds only constants; `MAX_PORT_NUMBER` = 65535 is the bound of `u16`.
- The relay-server behaviour built at src/p2p/client.rs:44 is libp2p's own code, and its events reach the loop only as the opaque `Relay` case. The file has no relay, reservation, circuit-dialing or hole-punching logic of its own to model.
