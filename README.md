# FamilyTV addon globals, modelled in Dafny

This project models the global configuration of the FamilyTV video addon for
Kodi (`lib/globals.py`). The configuration is a pair of mutable records:
`PortalConfig`, which holds the Stalker-middleware portal settings, and
`AddOnConfig`, which holds the addon's own metadata. `GlobalVariables` owns
both records and fills them in `init_globals`, and it derives three things
from the user's settings:

- the **portal URL**, an ordered three-way decision on the suffix of the
  server address (`/c/`, then `/c`, then neither) that uses Python's
  `str.replace`;
- the **device identity**: the device id is the upper-cased SHA-256 hex text
  of the MAC setting, and the serial is the first 13 upper-cased MD5 hex
  digits;
- the **first-run state machine**: `None`, then `True`, then `False`
  forever. Together with the host's `change` window property, it decides
  whether a call reloads every field.

The modules are:

- `Globals` (`globals.dfy`): the configuration records and the component;
- `PyText` (`pytext.dfy`): `str.endswith`, `str.count` and `str.replace`;
- `Hex` (`hex.dfy`): `hexdigest()` and ASCII `upper()`, with a decoder as
  their inverse;
- `Integers` (`integers.dfy`): `int()` and `str()` on decimal text;
- `Paths` (`paths.dfy`): `posixpath.join`;
- `Wrappers` (`wrappers.dfy`): `Option`, `Result` and `Outcome`.

Python's `None` defaults become `Option` fields. The exceptions the model
covers are `IndexError` and `ValueError` from `sys.argv` and `int()`, and
`TypeError` and `AttributeError` on `None` fields. Each becomes a failing
`Outcome` or `Result`, and the state Python leaves behind at that point stays
in place. A `ValueError` raised inside `urlsplit` is not modelled (see
"Left out"). The host is modelled as follows:

- the addon handle (`xbmcaddon.Addon`) is a class of two maps, for addon
  info and settings;
- window 10000 is a class holding a property map;
- `sys.argv` is a parameter;
- the library functions (`hashlib.md5`, `hashlib.sha256`, `urlsplit`,
  `urlencode`, `xbmcvfs.translatePath`) are function-valued fields of a
  `Library` value. Nothing is known about them beyond their types, and the
  digests have 16 and 32 bytes.

`str.replace` removes every occurrence of the marker, not only the trailing
one: `http://h/cdn/c` gives `http://hdn` followed by the context path.

## Model

| member | source | states |
|---|---|---|
| Globals.ContextPath | Repositorio/plugin.video.familytv/lib/globals.py:100 | the context path is `/portal.php` exactly when the flag is set, and `/server/load.php` exactly when it is not |
| Globals.PortalBaseUrl | Repositorio/plugin.video.familytv/lib/globals.py:87-90 | the base URL is the scheme that `urlsplit` returns, then `://`, then the network location, and nothing else |
| Globals.PortalUrl | Repositorio/plugin.video.familytv/lib/globals.py:98-106 | the portal URL always ends with the context path that the flag selects |
| Globals.PortalUrlContext | Repositorio/plugin.video.familytv/lib/globals.py:100 | the URL ends in `/portal.php` if and only if the alternative-context flag is set |
| Globals.PortalUrlWithoutMarker | Repositorio/plugin.video.familytv/lib/globals.py:101-106 | with neither `/c/` nor `/c` at the end of the address, the URL is the base URL, `/stalker_portal` and the context path |
| Globals.PortalUrlSlashMarker | Repositorio/plugin.video.familytv/lib/globals.py:102-103 | an address ending in `/c/` gives the address with every `/c/` removed, then the context path |
| Globals.PortalUrlMarker | Repositorio/plugin.video.familytv/lib/globals.py:104-105 | an address ending in `/c` but not `/c/` gives the address with every `/c` removed, then the context path |
| Globals.PortalUrlMarkerIgnoresBase | Repositorio/plugin.video.familytv/lib/globals.py:102-105 | when either marker ends the address, the base URL has no influence on the result |
| Globals.PortalUrlSlashMarkerLength | Repositorio/plugin.video.familytv/lib/globals.py:102-103 | in the `/c/` branch there is at least one occurrence, and the URL loses three characters per occurrence of `/c/` in the address |
| Globals.PortalUrlMarkerLength | Repositorio/plugin.video.familytv/lib/globals.py:104-105 | in the `/c` branch there is at least one occurrence, and the URL loses two characters per occurrence of `/c` in the address |
| Globals.PortalUrlStripsOnlyMarkerSlash | Repositorio/plugin.video.familytv/lib/globals.py:102-103 | when the trailing `/c/` is its only occurrence, the URL is the address without it, then the context path |
| Globals.PortalUrlStripsOnlyMarker | Repositorio/plugin.video.familytv/lib/globals.py:104-105 | when the trailing `/c` is its only occurrence, the URL is the address without it, then the context path |
| Globals.ReplaceMarkersInUrl | Repositorio/plugin.video.familytv/lib/globals.py:105 | replacing `/c` in `http://h/cdn/c` removes both occurrences, giving `http://hdn` |
| Globals.PortalUrlRemovesEveryMarker | Repositorio/plugin.video.familytv/lib/globals.py:104-105 | the address `http://h/cdn/c` gives `http://hdn` followed by `/server/load.php`, so the `/c` inside the path is removed too |
| PyText.EndsWith | Repositorio/plugin.video.familytv/lib/globals.py:102-105 | `s.endswith(suffix)` holds exactly when some text followed by `suffix` is `s` |
| PyText.Count | Repositorio/plugin.video.familytv/lib/globals.py:103-105 | the number of non-overlapping occurrences found left to right; that many copies of the pattern fit in the text |
| PyText.Replace | Repositorio/plugin.video.familytv/lib/globals.py:103-105 | replace-all by the same scan; a replacement no longer than the pattern never lengthens the text, and one no shorter never shortens it |
| PyText.ReplaceLength | Repositorio/plugin.video.familytv/lib/globals.py:103-105 | `str.replace` changes the length by the pattern count times the length difference of replacement and pattern |
| PyText.RemoveSuffixLength | Repositorio/plugin.video.familytv/lib/globals.py:102-105 | removing a pattern the text ends with removes at least one occurrence, and the pattern's length for each |
| PyText.ReplaceSkipsPrefix | Repositorio/plugin.video.familytv/lib/globals.py:103-105 | a prefix in which no occurrence starts is copied unchanged, and it adds nothing to the count |
| PyText.ReplaceWithoutMatch | Repositorio/plugin.video.familytv/lib/globals.py:103-105 | a text without occurrences is returned unchanged, and its count is zero |
| PyText.ReplaceOnlyTrailing | Repositorio/plugin.video.familytv/lib/globals.py:103-105 | when the trailing occurrence is the only one, replacing all occurrences replaces just that suffix, with count one |
| Globals.DeviceId | Repositorio/plugin.video.familytv/lib/globals.py:136-137 | the device id has 64 characters, each in `0-9A-F` |
| Globals.DeviceIdDecodes | Repositorio/plugin.video.familytv/lib/globals.py:137 | decoding the device id gives back the SHA-256 digest of the raw MAC text |
| Globals.DeviceIdIdentifiesDigest | Repositorio/plugin.video.familytv/lib/globals.py:137 | two MAC texts give the same device id if and only if their digests agree |
| Globals.Serial | Repositorio/plugin.video.familytv/lib/globals.py:119-123 | the serial has 13 characters, each in `0-9A-F` |
| Globals.SerialDecodes | Repositorio/plugin.video.familytv/lib/globals.py:120-123 | the serial is the first 13 characters of the upper-cased MD5 text; its first 12 decode to the first 6 digest bytes, and the 13th is the high digit of the 7th byte |
| Hex.Hexlify | Repositorio/plugin.video.familytv/lib/globals.py:120 | the hex text has two characters per byte |
| Hex.Upper | Repositorio/plugin.video.familytv/lib/globals.py:137 | `upper()` keeps the length of the text |
| Hex.UpperKeepsDigits | Repositorio/plugin.video.familytv/lib/globals.py:123 | `upper()` keeps the value of every character read as a hex digit |
| Hex.UpperHexlifyAlphabet | Repositorio/plugin.video.familytv/lib/globals.py:137 | the upper-cased hex text uses only `0-9A-F` |
| Hex.UpperHexlifyRoundTrip | Repositorio/plugin.video.familytv/lib/globals.py:137 | decoding the upper-cased hex text of any bytes gives the bytes back |
| Hex.UpperHexlifyOddPrefix | Repositorio/plugin.video.familytv/lib/globals.py:123 | the first `2k+1` upper-cased digits decode to the first `k` bytes, followed by the high digit of byte `k` |
| Globals.NextFirstRun | Repositorio/plugin.video.familytv/lib/globals.py:54 | the first-run field always becomes set, and it becomes true exactly when it was `None` |
| Globals.FirstRunOnlyOnce | Repositorio/plugin.video.familytv/lib/globals.py:54 | after `n >= 1` calls the field is set, and it is true after the first call only |
| Globals.Repopulates | Repositorio/plugin.video.familytv/lib/globals.py:54-56 | a call reloads exactly when the first-run field it finds is `None` or the `change` property is non-empty; `Window.GetProperty` reads an unset property as the empty string |
| Globals.RepopulatesOnCall | Repositorio/plugin.video.familytv/lib/globals.py:54-56 | call number `k` reloads exactly when `k` is 1 or the `change` property is non-empty |
| Globals.HandleArgument | Repositorio/plugin.video.familytv/lib/globals.py:66 | `int(sys.argv[1])` raises `IndexError` exactly when there is no second argument, and otherwise fails only with `ValueError` |
| Globals.HandleArgumentOfInt | Repositorio/plugin.video.familytv/lib/globals.py:66 | a handle passed as its decimal text is parsed back to the same integer |
| Integers.ParseInt | Repositorio/plugin.video.familytv/lib/globals.py:66 | `int(text)` accepts only text that starts with a sign or a digit; a negative result needs a leading `-`, and a leading `+` gives a non-negative one |
| Integers.IntToString | Repositorio/plugin.video.familytv/lib/globals.py:66 | `str(n)` is non-empty, starts with `-` exactly when `n` is negative, and is plain digits otherwise |
| Integers.ParseIntRoundTrip | Repositorio/plugin.video.familytv/lib/globals.py:66 | `int(str(n)) == n` for every integer `n` |
| Integers.NatToString | Repositorio/plugin.video.familytv/lib/globals.py:66 | decimal text is non-empty digits with no leading zero |
| Paths.Join | Repositorio/plugin.video.familytv/lib/globals.py:81 | joining one component ends with that component; an absolute component replaces the path; a relative one is appended with a `/` inserted unless the path is empty or already ends in `/` |
| Paths.JoinAll | Repositorio/plugin.video.familytv/lib/globals.py:81 | `os.path.join` of several parts ends with the last part |
| Paths.JoinThree | Repositorio/plugin.video.familytv/lib/globals.py:81 | joining a directory with two plain names and a file name gives the directory (with a `/` inserted unless it is empty or already ends in `/`), then the names separated by `/`; an absolute file name replaces the whole path |
| Globals.CustomThumbPath | Repositorio/plugin.video.familytv/lib/globals.py:81 | the thumbnail path is the addon directory (with a `/` inserted unless it is empty or already ends in `/`), then `resources/media/` and the file; an absolute file name stands for itself |
| Globals.GlobalVariables.GetCustomThumbPath | Repositorio/plugin.video.familytv/lib/globals.py:79-81 | raises `TypeError` exactly when the addon directory is `None`, and otherwise gives the joined thumbnail path |
| Globals.GlobalVariables.GetPluginUrl | Repositorio/plugin.video.familytv/lib/globals.py:83-85 | the plugin URL is the addon URL as `format` prints it (`FormatText`: the text itself, or `None` for a missing URL), a `?`, and the encoded query |
| Globals.GlobalVariables.GetHandle | Repositorio/plugin.video.familytv/lib/globals.py:75-77 | returns the stored handle, `None` before any successful reload |
| Globals.GlobalVariables.GetPortalUrl | Repositorio/plugin.video.familytv/lib/globals.py:98-106 | a `None` base URL raises `TypeError` before the address is looked at; it succeeds exactly when both base URL and address are set; once a URL is stored, the URL it computes is the stored one |
| Globals.GlobalVariables.GenerateDeviceId | Repositorio/plugin.video.familytv/lib/globals.py:128-139 | the id has 64 upper-case hex digits and decodes to the SHA-256 digest of the untrimmed `mac_address` setting |
| Globals.GlobalVariables.GenerateSerial | Repositorio/plugin.video.familytv/lib/globals.py:108-126 | the serial has 13 upper-case hex digits, and its first 12 decode to the first 6 bytes of the MD5 digest of the untrimmed `mac_address` setting |
| Globals.GlobalVariables.PortalLoaded | Repositorio/plugin.video.familytv/lib/globals.py:67-73 | portal fields freshly derived from the settings satisfy the consistency invariant `Valid` |
| Globals.GlobalVariables.SetPortalAddresses | Repositorio/plugin.video.familytv/lib/globals.py:92-96 | stores the `server_address` setting, the base URL derived from it, and the portal URL for it; afterwards `get_portal_url` returns that stored URL; all other fields are untouched |
| Globals.GlobalVariables.LoadIdentity | Repositorio/plugin.video.familytv/lib/globals.py:67-72 | the cookie is `mac=` followed by the MAC setting; both device ids are the id of that MAC; signature and serial come from the settings; the flag is set exactly when the setting is the text `true` |
| Globals.GlobalVariables.LoadPortal | Repositorio/plugin.video.familytv/lib/globals.py:67-73 | every portal field is freshly derived from the settings |
| Globals.GlobalVariables.LoadAddonInfo | Repositorio/plugin.video.familytv/lib/globals.py:58-65 | clears the `change` property, then stores the addon id, name and path, and the profile directory as `translatePath` gives it (`TokenPath`) |
| Globals.GlobalVariables.Populate | Repositorio/plugin.video.familytv/lib/globals.py:57-73 | keeps `Valid`; clears `change` and loads the addon fields; a bad `argv[1]` raises with handle and portal fields unchanged; otherwise it stores the handle and reloads every portal field |
| Globals.GlobalVariables.InitGlobals | Repositorio/plugin.video.familytv/lib/globals.py:52-73 | advances the first-run field; an empty `argv` raises `IndexError` and changes nothing else; otherwise `argv[0]` is stored as URL; without first run or `change`, every other field and the window stay unchanged; with one of them it reloads as `Populate` states; `Valid` is kept |
| Globals.GlobalVariables.constructor | Repositorio/plugin.video.familytv/lib/globals.py:45-50 | starts with no first-run value and fresh records holding their declared defaults, which satisfy `Valid` |
| Globals.PortalConfig.constructor | Repositorio/plugin.video.familytv/lib/globals.py:15-26 | every portal field is `None` and the flag is false |
| Globals.AddOnConfig.constructor | Repositorio/plugin.video.familytv/lib/globals.py:29-39 | every addon field is `None`, the page limit is 30 and the retry count is 3 |
| Globals.Window.ClearProperty | Repositorio/plugin.video.familytv/lib/globals.py:58 | removes exactly the named property |
| Globals.InitTwice | Repositorio/plugin.video.familytv/lib/globals.py:52-56 | two calls without the `change` property: after them the first-run field is false, the second call succeeds, the URL is the second `argv[0]`, the window is as before and `Valid` holds; with a first-run value already set neither call reloads, so every other field is as before; without one the first call reloads: addon fields loaded, and either handle and portal fields loaded from a parsing `argv[1]`, or the first call's `ValueError` with handle and portal fields as before |

## Left out

- The MD5 and SHA-256 algorithms are uninterpreted functions with 16- and 32-byte results. The UTF-8 encoding of the MAC text (`mac.encode()`) is folded into them.
- `urlsplit` and `urlencode` are uninterpreted functions. Parsing and percent-encoding are not modelled, so `Globals.GlobalVariables.GetPluginUrl` states only the shape of its result.
- `xbmcvfs.exists` and `xbmcvfs.mkdirs` (lines 63-64) create the token directory on disk. They have no effect on the fields, and file system effects are not modelled. `xbmcvfs.translatePath` is an uninterpreted function.
- `Logger.debug` (line 57) only writes to the log.
- `os.path.join` follows the POSIX rules. The Windows rules (drive letters, backslashes) are not modelled.
- `Integers.ParseInt` and `Globals.HandleArgument`: the `int()` model accepts an optional sign followed by ASCII digits. Python also accepts surrounding whitespace, underscores between digits and non-ASCII digits; those texts fail with `ValueError` here.
- `upper()` is modelled on the ASCII hex alphabet only, the only characters `hexdigest()` produces.
- The module-level singleton `G` (line 142) and the module-level `home` window (line 12) are an object and a parameter the caller supplies.
- The dataclass annotation gives `handle` the type `str`, but the code stores an `int`. The model stores the integer the code assigns.
- Globals.GlobalVariables.SetPortalAddresses: the `ValueError` that `urlsplit` raises on a malformed address (an unclosed IPv6 bracket such as `http://[::1`) is not modelled, because `urlsplit` is an uninterpreted total function here. In the program that exception comes after line 94 has stored the new server address and lines 67-72 have stored the new flag. The old portal URL is left behind, out of step with them. So `Valid`, and the `PortalLoaded` result of `InitGlobals` and `Populate`, hold only for runs in which `urlsplit` succeeds.
- `Globals.GlobalVariables.GetPortalUrl` is modelled on the stored fields. The call from `__set_portal_addresses` always sees a string base URL, because `__get_portal_base_url` returns one, so its error cases arise only for callers that read it before a reload.
