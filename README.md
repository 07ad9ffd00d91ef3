# Pushover client: request encoding and reply classification

This project models the request and reply layer of the Rust client for the Pushover
notification service.

Each request is a value or builder object that writes itself into a URL. It pushes path
segments beneath the versioned base and appends query pairs in a fixed order:
- mandatory fields first;
- optional fields only when set;
- several devices joined with commas;
- the emergency extras of a priority.

It also names its HTTP verb, and a few requests supply a form body.

Every reply is decoded into a raw record of optional fields. Status `1` is the only
success. Any other status becomes a service error that carries the status, the request
identifier and the error list. A success is narrowed by the endpoint's `map`, which
unwraps the fields that endpoint needs.

Layout: one module per source file, plus three helper modules.
- `Wrappers`: `Option` and `Result`.
- `Decimal`: the integer widths as subset types, Rust's `to_string` for integers, and a
  parser that reads it back.
- `Text`: joining and splitting on a separator.

A request the source changes in place is a `class` with its fields. The builder setters
on `SendMessage`, `Glance`, `Verification`, `Assign` and `User` state the object's whole
new value (`Value()`), and `BuildUrl` states the URL's new path and query in terms of the
old ones. Requests the source never mutates are datatypes with a `BuildUrl` method. The
URL is a `class Url` whose path is a list of segments and whose query is an ordered list
of pairs. The partner of every `map` is the success reply that carries a given response:
`Reply` for endpoints with fields of their own (`Assign` shares the credits reply of
`CheckCredits`), `SuccessReply` with an empty body for the endpoints that return only the
request identifier. Every `Map` ensures that rebuilding this reply from its result gives
back the decoded reply with status 1 and no error list, so `map` loses nothing but status
and errors; every `MapRoundTrip` proves the converse through `Dispatch`.

Where the written description of the system and the code differ, the model follows the
code:
- The description says the error list of a failed reply is present and non-empty. The
  code only unwraps it, so an empty list is accepted here
  (`src/requests/base.rs:18-21`).
- The description calls requests immutable. The code's builders (`add_device`,
  `set_title`, ...) mutate them in place, and so does the model.
- The description treats the query as a set of parameters. The code's tests compare
  whole URLs, so pair order matters. The model states the exact order and proves that no
  key repeats.

## Model

| member | source | states |
|---|---|---|
| Base.GetError | src/requests/base.rs:13-26 | no error exactly when the status is 1, whatever the error list holds; otherwise the error carries the reply's status, request identifier and exactly its error list; a failed reply without an error list is outside the precondition (the source panics) |
| Base.Deserialize | src/requests/base.rs:72-85 | `Error` exactly when `get_error` finds one, and then that error; otherwise `Success` holding the reply unchanged |
| Base.Dispatch | src/client.rs:63-70 | a reply with status other than 1 becomes that service error; a success is passed through the endpoint's `map` |
| Base.DeserializeWithError | src/requests/base.rs:143-166 | status 0 with errors `error1`, `error2` classifies as the error with the same status, request and errors |
| Base.DeserializeNoError | src/requests/base.rs:168-183 | status 1 without errors classifies as a success holding the reply unchanged |
| Base.DefaultFormParameters | src/requests/base.rs:61-63 | a request that does not override it sends no form body |
| Base.Url.Versioned | src/client.rs:48-49 | the client starts every URL from the path `1` (the API version) and an empty query |
| Base.AddOptionalParam | src/requests/base.rs:98-105 | appends the one pair `(key, value.to_string())` when the value is present and nothing otherwise, leaving the earlier pairs and the path as they were |
| Base.OptionalPairShape | src/requests/base.rs:98-105 | the pairs added hold one element exactly when the value is present, and it is `(key, rendered value)` |
| Base.JsonSegmentRoundTrip | src/requests/receipt/receipt_status.rs:41 | the name put into a `<name>.json` segment (a receipt, a group key) can be read back out of it |
| Decimal.IntToString | src/requests/message/send_message.rs:105-106 | an integer is written as a minus sign exactly when it is negative, followed by at least one decimal digit and nothing else; `IntToStringRoundTrip` reads it back |
| Decimal.IntToStringRoundTrip | src/requests/message/send_message.rs:105-106 | the decimal rendering of any integer reads back as that integer |
| Decimal.IntToStringInjective | src/requests/message/send_message.rs:105-106 | different integers are rendered differently |
| Text.Join | src/requests/message/send_message.rs:91-95 | no parts give the empty string; the first part opens the result; when no part holds the separator, the separator occurs exactly when there are at least two parts; `SplitJoin` undoes it |
| Text.SplitJoin | src/requests/message/send_message.rs:91-95 | device names without commas split back out of their comma-joined form, in order |
| Priorities.Priority.Display | src/types/priority.rs:18-30 | every level is written as the decimal of a code in -2..2, and as `2` exactly for an emergency |
| Priorities.FromInt | src/types/priority.rs:33-48 | a priority exactly for -2..2; its display is the decimal of the code; 2 gives an emergency with zero retry and expiry and no callback |
| Priorities.Deserialize | src/types/priority.rs:51-59 | decoding fails exactly when `from_int` rejects the value, with the expected values `-2, -1, 0, 1, 2`; otherwise it gives `from_int`'s priority |
| Priorities.DisplayFromIntRoundTrip | src/types/priority.rs:18-48 | every priority displays as an integer in -2..2 that `from_int` maps back to the same level (an emergency loses only its extras) |
| Priorities.DisplayDistinguishesLevels | src/types/priority.rs:18-30 | two priorities display alike exactly when they are the same level; every emergency displays as `2` |
| Sounds.Sound.Display | src/types/sound.rs:29-54 | every sound's name is a non-empty word of lower-case ASCII letters |
| Sounds.DisplayInjective | src/types/sound.rs:31-54 | distinct sounds have distinct names |
| OperatingSystems.OperatingSystem.Display | src/types/operating_system.rs:11-20 | every platform is written as a non-empty word of ASCII letters; `DisplayInjective` shows the names differ |
| OperatingSystems.DisplayInjective | src/types/operating_system.rs:11-20 | distinct platforms have distinct names |
| Deserializers.OptionEmptyString | src/deserializers/mod.rs:3-13 | an empty string becomes absent; any other value, and absence, pass through; the result is never an empty string |
| Deserializers.OptionEmptyStringIdempotent | src/deserializers/mod.rs:9-12 | normalising twice is normalising once |
| Users.User.constructor | src/types/user.rs:15-25 | the given user key, no device, no memo, not disabled |
| Users.User.SetDevice | src/types/user.rs:27-32 | only the device changes, to the given one |
| Users.User.SetMemo | src/types/user.rs:34-39 | only the memo changes, to the given one |
| Users.Decode | src/types/user.rs:4-12 | a decoded user keeps its key and flag; an empty device or memo becomes absent, any other is kept |
| Users.DecodeIdempotent | src/types/user.rs:4-12 | decoding a decoded user changes nothing |
| SendMessageRequest.SendMessage.constructor | src/requests/message/send_message.rs:25-42 | token, user and message as given, no devices, every option absent |
| SendMessageRequest.SendMessage.AddDevice | src/requests/message/send_message.rs:44-46 | one device added at the end; nothing else changes |
| SendMessageRequest.SendMessage.SetTitle | src/requests/message/send_message.rs:48-50 | only the title changes |
| SendMessageRequest.SendMessage.SetUrl | src/requests/message/send_message.rs:52-54 | only the URL changes |
| SendMessageRequest.SendMessage.SetUrlTitle | src/requests/message/send_message.rs:56-58 | only the URL title changes |
| SendMessageRequest.SendMessage.SetTimestamp | src/requests/message/send_message.rs:60-62 | only the timestamp changes |
| SendMessageRequest.SendMessage.SetPriority | src/requests/message/send_message.rs:64-66 | only the priority changes |
| SendMessageRequest.SendMessage.SetSound | src/requests/message/send_message.rs:68-70 | only the sound changes |
| SendMessageRequest.SendMessage.GetMethod | src/requests/message/send_message.rs:112-114 | sent with POST |
| SendMessageRequest.SendMessageValue.Query | src/requests/message/send_message.rs:82-108 | the pairs `build_url` appends: at least the three mandatory ones and at most one per key, and only the mandatory ones exactly when no option, device or priority is set; order and contents are stated by the lemmas below |
| SendMessageRequest.SendMessage.BuildUrl | src/requests/message/send_message.rs:77-110 | pushes `messages.json` and appends exactly the request's query after the existing pairs |
| SendMessageRequest.AppendPriority | src/requests/message/send_message.rs:97-109 | appends the priority pair and, only for an emergency, retry, expire and the callback when present |
| SendMessageRequest.QueryKeysInOrder | src/requests/message/send_message.rs:82-108 | the keys sent follow the order token, user, message, title, url, url_title, timestamp, sound, device, priority, retry, expire, callback |
| SendMessageRequest.QueryKeysDistinct | src/requests/message/send_message.rs:82-108 | no key is sent twice; in particular all devices travel in one `device` pair |
| SendMessageRequest.MandatoryPairsFirst | src/requests/message/send_message.rs:82-84 | the query starts with token, user and message, in this order |
| SendMessageRequest.TitleSent | src/requests/message/send_message.rs:85 | a `title` pair with a value is sent exactly when the title is set to that value |
| SendMessageRequest.UrlSent | src/requests/message/send_message.rs:86 | a `url` pair is sent exactly when the URL is set to that value |
| SendMessageRequest.UrlTitleSent | src/requests/message/send_message.rs:87 | a `url_title` pair is sent exactly when the URL title is set to that value |
| SendMessageRequest.TimestampSent | src/requests/message/send_message.rs:88 | a `timestamp` pair is sent exactly when the timestamp is set to that value |
| SendMessageRequest.SoundSent | src/requests/message/send_message.rs:89 | a `sound` pair is sent exactly when a sound is set, with that sound's name |
| SendMessageRequest.DeviceSent | src/requests/message/send_message.rs:91-95 | a `device` pair is sent exactly when there is a device, and its value is all devices joined with commas |
| SendMessageRequest.DevicesRecoverable | src/requests/message/send_message.rs:91-95 | when no device name holds a comma, the `device` value splits back into the devices in the order they were added |
| SendMessageRequest.PrioritySent | src/requests/message/send_message.rs:97-98 | a `priority` pair is sent exactly when a priority is set, with its number |
| SendMessageRequest.RetryExpireSent | src/requests/message/send_message.rs:100-106 | `retry` and `expire` are sent exactly for an emergency, as the decimals of its values |
| SendMessageRequest.CallbackSent | src/requests/message/send_message.rs:100-107 | a `callback` pair is sent exactly for an emergency that has that callback |
| SendMessageRequest.Map | src/requests/message/send_message.rs:116-121 | `map` drops only status and errors: the success reply rebuilt from the response (`Reply`) is the decoded reply with status 1 and no error list, so request and receipt are copied unchanged; `MapRoundTrip` is the converse |
| SendMessageRequest.MapRoundTrip | src/requests/message/send_message.rs:116-121 | the success reply for a response (receipt or not) dispatches to that response |
| SendMessageRequest.AllFieldsQuery | src/requests/message/send_message.rs:148-171 | every field set, normal priority: the exact ten pairs of the source's test, in order |
| SendMessageRequest.MandatoryOnlyQuery | src/requests/message/send_message.rs:173-182 | a new request sends exactly token, user, message |
| SendMessageRequest.MultipleDevicesQuery | src/requests/message/send_message.rs:184-199 | three devices travel as one pair `device 1,device 2,device 3` |
| SendMessageRequest.EmergencyWithCallbackQuery | src/requests/message/send_message.rs:201-219 | an emergency with callback sends priority 2, retry 10, expire 20, callback |
| SendMessageRequest.EmergencyWithoutCallbackQuery | src/requests/message/send_message.rs:221-234 | an emergency without callback sends retry and expire and no callback pair |
| GlanceRequest.Glance.constructor | src/requests/glance/glance.rs:22-36 | token and user key as given, all six options absent |
| GlanceRequest.Glance.SetDevice | src/requests/glance/glance.rs:38-40 | only the device changes |
| GlanceRequest.Glance.SetTitle | src/requests/glance/glance.rs:42-44 | only the title changes |
| GlanceRequest.Glance.SetText | src/requests/glance/glance.rs:46-48 | only the text changes |
| GlanceRequest.Glance.SetSubtext | src/requests/glance/glance.rs:50-52 | only the subtext changes |
| GlanceRequest.Glance.SetCount | src/requests/glance/glance.rs:54-56 | only the count changes |
| GlanceRequest.Glance.SetPercent | src/requests/glance/glance.rs:58-60 | only the percentage changes |
| GlanceRequest.Glance.GetMethod | src/requests/glance/glance.rs:81-83 | sent with POST |
| GlanceRequest.GlanceValue.Query | src/requests/glance/glance.rs:71-78 | the pairs `build_url` appends: at least token and user and at most one per key, and only those two exactly when no optional field is set |
| GlanceRequest.Glance.BuildUrl | src/requests/glance/glance.rs:67-79 | pushes `glances.json` and appends exactly the glance's query after the existing pairs |
| GlanceRequest.MandatoryPairsFirst | src/requests/glance/glance.rs:71-72 | the query starts with token and user, in this order |
| GlanceRequest.QueryKeysInOrder | src/requests/glance/glance.rs:71-78 | the keys sent follow the order token, user, device, title, text, subtext, count, percent |
| GlanceRequest.QueryKeysDistinct | src/requests/glance/glance.rs:71-78 | no key is sent twice |
| GlanceRequest.DeviceSent | src/requests/glance/glance.rs:73 | a `device` pair is sent exactly when the device is set to that value |
| GlanceRequest.TitleSent | src/requests/glance/glance.rs:74 | a `title` pair is sent exactly when the title is set to that value |
| GlanceRequest.TextSent | src/requests/glance/glance.rs:75 | a `text` pair is sent exactly when the text is set to that value |
| GlanceRequest.SubtextSent | src/requests/glance/glance.rs:76 | a `subtext` pair is sent exactly when the subtext is set to that value |
| GlanceRequest.CountSent | src/requests/glance/glance.rs:77 | a `count` pair is sent exactly when the count is set, as its decimal, which reads back as the count |
| GlanceRequest.PercentSent | src/requests/glance/glance.rs:78 | a `percent` pair is sent exactly when the percentage is set, as its decimal, which reads back as it |
| GlanceRequest.Map | src/requests/glance/glance.rs:85-87 | `map` keeps only the request identifier: the success reply rebuilt from it is the decoded reply with status 1 and no error list; `MapRoundTrip` is the converse |
| GlanceRequest.MapRoundTrip | src/requests/glance/glance.rs:85-87 | the success reply for a request identifier dispatches to that identifier |
| GlanceRequest.AllFieldsQuery | src/requests/glance/glance.rs:95-109 | every field set: the exact eight pairs of the source's test, count 10 and percent 80 in decimal |
| GlanceRequest.MandatoryOnlyQuery | src/requests/glance/glance.rs:111-118 | a new glance sends exactly token and user |
| LimitsRequest.Limits.GetMethod | src/requests/message/limits.rs:26-28 | sent with GET |
| LimitsRequest.Limits.BuildUrl | src/requests/message/limits.rs:30-38 | pushes `apps`, `limits.json` and appends only the token |
| LimitsRequest.Map | src/requests/message/limits.rs:40-47 | with every field it unwraps present, `map` drops only status and errors: the success reply rebuilt from the response (`Reply`) is the decoded reply with status 1 and no error list; `MapRoundTrip` is the converse |
| LimitsRequest.MapRoundTrip | src/requests/message/limits.rs:40-47 | the success reply for a response dispatches to that response |
| LimitsRequest.FullUrl | src/requests/message/limits.rs:78-83 | the full URL is `1/apps/limits.json?token=...` |
| LimitsRequest.ServiceErrorReply | tests/requests.rs:9-33 | status 0 with errors `Error 1`, `Error 2` and request `request_number` is returned as exactly that service error |
| LimitsRequest.SuccessfulReply | tests/requests.rs:35-58 | status 1 with limit 1, remaining 2, reset 3 is returned as that response |
| ReceiptStatusRequest.ReceiptStatus.GetMethod | src/requests/receipt/receipt_status.rs:33-35 | sent with GET |
| ReceiptStatusRequest.ReceiptStatus.BuildUrl | src/requests/receipt/receipt_status.rs:37-45 | pushes `receipts`, `<receipt>.json` and appends only the token |
| ReceiptStatusRequest.Map | src/requests/receipt/receipt_status.rs:47-60 | with every field it unwraps present, `map` drops only status and errors: the success reply rebuilt from the response (`Reply`) is the decoded reply with status 1 and no error list; `MapRoundTrip` is the converse |
| ReceiptStatusRequest.MapRoundTrip | src/requests/receipt/receipt_status.rs:47-60 | the success reply for a response dispatches to that response |
| ReceiptStatusRequest.FullUrl | src/requests/receipt/receipt_status.rs:103-112 | the full URL is `1/receipts/<receipt>.json?token=...` |
| CancelEmergencyRequest.CancelEmergency.GetMethod | src/requests/receipt/cancel_emergency.rs:32-34 | sent with POST |
| CancelEmergencyRequest.CancelEmergency.BuildUrl | src/requests/receipt/cancel_emergency.rs:36-45 | pushes `receipts`, the receipt, `cancel.json` and appends only the token |
| CancelEmergencyRequest.Map | src/requests/receipt/cancel_emergency.rs:47-49 | `map` keeps only the request identifier: the success reply rebuilt from it is the decoded reply with status 1 and no error list; `MapRoundTrip` is the converse |
| CancelEmergencyRequest.MapRoundTrip | src/requests/receipt/cancel_emergency.rs:47-49 | the success reply for a request identifier dispatches to that identifier |
| CancelEmergencyRequest.FullUrl | src/requests/receipt/cancel_emergency.rs:57-66 | the full URL is `1/receipts/<receipt>/cancel.json?token=...` |
| VerificationRequest.Verification.constructor | src/requests/verification/verification.rs:18-28 | token and user as given, no device |
| VerificationRequest.Verification.SetDevice | src/requests/verification/verification.rs:30-32 | only the device changes |
| VerificationRequest.Verification.GetMethod | src/requests/verification/verification.rs:51-53 | sent with POST |
| VerificationRequest.VerificationValue.Query | src/requests/verification/verification.rs:46-48 | the pairs `build_url` appends: three when the device is set, two otherwise |
| VerificationRequest.Verification.BuildUrl | src/requests/verification/verification.rs:39-49 | pushes `users`, `validate.json` and appends token, user and the device when set |
| VerificationRequest.MandatoryPairsFirst | src/requests/verification/verification.rs:46-47 | the query starts with token and user |
| VerificationRequest.DeviceSent | src/requests/verification/verification.rs:48 | a `device` pair is sent, last, exactly when the device is set to that value |
| VerificationRequest.Map | src/requests/verification/verification.rs:55-60 | with every field it unwraps present, `map` drops only status and errors: the success reply rebuilt from the response (`Reply`) is the decoded reply with status 1 and no error list; `MapRoundTrip` is the converse |
| VerificationRequest.MapRoundTrip | src/requests/verification/verification.rs:55-60 | the success reply for a response dispatches to that response |
| VerificationRequest.AllFieldsQuery | src/requests/verification/verification.rs:86-100 | with a device: exactly token, user, device |
| VerificationRequest.MandatoryOnlyQuery | src/requests/verification/verification.rs:102-111 | without a device: exactly token, user |
| CheckCreditsRequest.CheckCredits.GetMethod | src/requests/license/check_credits.rs:37-39 | sent with GET |
| CheckCreditsRequest.CheckCredits.BuildUrl | src/requests/license/check_credits.rs:30-35 | pushes `licenses.json` and appends only the token |
| CheckCreditsRequest.Map | src/requests/license/check_credits.rs:41-46 | with every field it unwraps present, `map` drops only status and errors: the success reply rebuilt from the response (`Reply`) is the decoded reply with status 1 and no error list; `MapRoundTrip` is the converse |
| CheckCreditsRequest.MapRoundTrip | src/requests/license/check_credits.rs:41-46 | the success reply for a response dispatches to that response |
| CheckCreditsRequest.FullUrl | src/requests/license/check_credits.rs:73-78 | the full URL is `1/licenses.json?token=...` |
| AssignRequest.Assign.constructor | src/requests/license/assign.rs:19-27 | token and user as given, no platform |
| AssignRequest.Assign.SetOs | src/requests/license/assign.rs:29-31 | only the platform changes |
| AssignRequest.Assign.GetMethod | src/requests/license/assign.rs:59-61 | sent with POST |
| AssignRequest.AssignValue.Query | src/requests/license/assign.rs:45-56 | the pairs `build_url` appends: three when the platform is set, two otherwise |
| AssignRequest.Assign.BuildUrl | src/requests/license/assign.rs:38-57 | pushes `licenses`, `assign.json` and appends token, the user pair and the platform when set |
| AssignRequest.UserSent | src/requests/license/assign.rs:45-54 | token first; then `email` exactly for an address and `user` exactly for a user key, never both |
| AssignRequest.OsSent | src/requests/license/assign.rs:56 | an `os` pair with the platform's name is sent, last, exactly when the platform is set |
| AssignRequest.Map | src/requests/license/assign.rs:63-68 | with the credits present, `map` drops only status and errors: the check-credits success reply rebuilt from the response is the decoded reply with status 1 and no error list; `MapRoundTrip` is the converse |
| AssignRequest.MapRoundTrip | src/requests/license/assign.rs:63-68 | the success reply for a response dispatches to that response |
| AssignRequest.AllFieldsQuery | src/requests/license/assign.rs:76-87 | an address and iOS: exactly token, email, `os=iOS` |
| AssignRequest.MandatoryOnlyQuery | src/requests/license/assign.rs:89-96 | a user key, no platform: exactly token, user |
| AddUserRequest.New | src/requests/groups/add_user.rs:18-28 | the request holds the token, the group key and a copy of the user's current value |
| AddUserRequest.AddUser.GetMethod | src/requests/groups/add_user.rs:49-51 | sent with POST |
| AddUserRequest.AddUser.Query | src/requests/groups/add_user.rs:43-46 | the pairs `build_url` appends: two to four, and only token and user exactly when the user has neither device nor memo |
| AddUserRequest.AddUser.BuildUrl | src/requests/groups/add_user.rs:35-47 | pushes `groups`, the group key, `add_user.json` and appends exactly the request's query |
| AddUserRequest.MandatoryPairsFirst | src/requests/groups/add_user.rs:43-44 | the query starts with token and the user key |
| AddUserRequest.DeviceSent | src/requests/groups/add_user.rs:45 | a `device` pair is sent exactly when the user has that device |
| AddUserRequest.MemoSent | src/requests/groups/add_user.rs:46 | a `memo` pair is sent exactly when the user has that memo |
| AddUserRequest.Map | src/requests/groups/add_user.rs:53-55 | `map` keeps only the request identifier: the success reply rebuilt from it is the decoded reply with status 1 and no error list; `MapRoundTrip` is the converse |
| AddUserRequest.MapRoundTrip | src/requests/groups/add_user.rs:53-55 | the success reply for a request identifier dispatches to that identifier |
| AddUserRequest.AllFieldsQuery | src/requests/groups/add_user.rs:63-81 | a user with device and memo: exactly token, user, device, memo |
| AddUserRequest.MandatoryOnlyQuery | src/requests/groups/add_user.rs:83-94 | a new user: exactly token, user |
| RemoveUserRequest.RemoveUser.GetMethod | src/requests/groups/remove_user.rs:46-48 | sent with POST |
| RemoveUserRequest.RemoveUser.BuildUrl | src/requests/groups/remove_user.rs:34-44 | pushes `groups`, the group key, `delete_user.json` and appends token, then user |
| RemoveUserRequest.Map | src/requests/groups/remove_user.rs:50-52 | `map` keeps only the request identifier: the success reply rebuilt from it is the decoded reply with status 1 and no error list; `MapRoundTrip` is the converse |
| RemoveUserRequest.MapRoundTrip | src/requests/groups/remove_user.rs:50-52 | the success reply for a request identifier dispatches to that identifier |
| RemoveUserRequest.FullUrl | src/requests/groups/remove_user.rs:60-67 | the full URL is `1/groups/<group>/delete_user.json?token=...&user=...` |
| RenameRequest.Rename.GetMethod | src/requests/groups/rename.rs:47-49 | sent with POST |
| RenameRequest.Rename.BuildUrl | src/requests/groups/rename.rs:35-45 | pushes `groups`, the group key, `rename.json` and appends token, then name |
| RenameRequest.Map | src/requests/groups/rename.rs:51-53 | `map` keeps only the request identifier: the success reply rebuilt from it is the decoded reply with status 1 and no error list; `MapRoundTrip` is the converse |
| RenameRequest.MapRoundTrip | src/requests/groups/rename.rs:51-53 | the success reply for a request identifier dispatches to that identifier |
| RenameRequest.FullUrl | src/requests/groups/rename.rs:61-70 | the full URL is `1/groups/<group>/rename.json?token=...&name=...` |
| ToggleUserRequest.ToggleUser.GetMethod | src/requests/groups/toggle_user.rs:51-53 | sent with POST |
| ToggleUserRequest.ToggleUser.BuildUrl | src/requests/groups/toggle_user.rs:37-49 | pushes `groups`, the group key and the endpoint the toggle picks; appends token, then user, whatever the toggle |
| ToggleUserRequest.EndpointSegment | src/requests/groups/toggle_user.rs:38-44 | the last path segment is `enable_user.json` exactly when enabling and `disable_user.json` exactly when disabling |
| ToggleUserRequest.EndpointSegmentDistinguishes | src/requests/groups/toggle_user.rs:38-44 | `enable_user.json` for true, `disable_user.json` for false, so the segment tells the toggle apart |
| ToggleUserRequest.Map | src/requests/groups/toggle_user.rs:55-57 | `map` keeps only the request identifier: the success reply rebuilt from it is the decoded reply with status 1 and no error list; `MapRoundTrip` is the converse |
| ToggleUserRequest.MapRoundTrip | src/requests/groups/toggle_user.rs:55-57 | the success reply for a request identifier dispatches to that identifier |
| ToggleUserRequest.FullUrl | src/requests/groups/toggle_user.rs:65-85 | the full URL ends in `enable_user.json` when enabling and `disable_user.json` when disabling, with token and user |
| ListUsersRequest.ListUsers.GetMethod | src/requests/groups/list_users.rs:44-46 | sent with GET |
| ListUsersRequest.ListUsers.BuildUrl | src/requests/groups/list_users.rs:34-42 | pushes `groups`, `<group key>.json` and appends only the token |
| ListUsersRequest.Map | src/requests/groups/list_users.rs:48-54 | with every field it unwraps present, `map` drops only status and errors: the success reply rebuilt from the response (`Reply`) is the decoded reply with status 1 and no error list; `MapRoundTrip` is the converse |
| ListUsersRequest.MapRoundTrip | src/requests/groups/list_users.rs:48-54 | the success reply for a response dispatches to that response |
| ListUsersRequest.FullUrl | src/requests/groups/list_users.rs:83-92 | the full URL is `1/groups/<group key>.json?token=...` |
| LoginRequest.Login.GetMethod | src/requests/open_client/login.rs:35-37 | sent with POST |
| LoginRequest.Login.BuildUrl | src/requests/open_client/login.rs:31-33 | pushes `users`, `login.json` and appends no query pair |
| LoginRequest.Login.FormParameters | src/requests/open_client/login.rs:47-50 | the form body is e-mail then password, unlike the default of no body |
| LoginRequest.Map | src/requests/open_client/login.rs:39-45 | with every field it unwraps present, `map` drops only status and errors: the success reply rebuilt from the response (`Reply`) is the decoded reply with status 1 and no error list; `MapRoundTrip` is the converse |
| LoginRequest.MapRoundTrip | src/requests/open_client/login.rs:39-45 | the success reply for a response dispatches to that response |
| LoginRequest.FullUrl | src/requests/open_client/login.rs:79-86 | the full URL is `1/users/login.json` with no query |
| RegisterDeviceRequest.RegisterDevice.GetMethod | src/requests/open_client/register_device.rs:35-37 | sent with POST |
| RegisterDeviceRequest.RegisterDevice.BuildUrl | src/requests/open_client/register_device.rs:31-33 | pushes `devices.json` and appends no query pair |
| RegisterDeviceRequest.RegisterDevice.FormParameters | src/requests/open_client/register_device.rs:46-50 | the form body is secret, name and the fixed platform `O`, in this order |
| RegisterDeviceRequest.Map | src/requests/open_client/register_device.rs:39-44 | with every field it unwraps present, `map` drops only status and errors: the success reply rebuilt from the response (`Reply`) is the decoded reply with status 1 and no error list; `MapRoundTrip` is the converse |
| RegisterDeviceRequest.MapRoundTrip | src/requests/open_client/register_device.rs:39-44 | the success reply for a response dispatches to that response |
| RegisterDeviceRequest.FullUrl | src/requests/open_client/register_device.rs:77-84 | the full URL is `1/devices.json` with no query |
| DownloadMessagesRequest.DownloadMessages.GetMethod | src/requests/open_client/download_messages.rs:42-44 | sent with GET |
| DownloadMessagesRequest.DownloadMessages.BuildUrl | src/requests/open_client/download_messages.rs:34-40 | pushes `messages.json` and appends secret, then device id |
| DownloadMessagesRequest.Map | src/requests/open_client/download_messages.rs:46-51 | with every field it unwraps present, `map` drops only status and errors: the success reply rebuilt from the response (`Reply`) is the decoded reply with status 1 and no error list; `MapRoundTrip` is the converse |
| DownloadMessagesRequest.MapRoundTrip | src/requests/open_client/download_messages.rs:46-51 | the success reply for a response dispatches to that response |
| DownloadMessagesRequest.FullUrl | src/requests/open_client/download_messages.rs:78-87 | the full URL is `1/messages.json?secret=...&device_id=...` |
| DeleteMessagesRequest.DeleteMessages.GetMethod | src/requests/open_client/delete_messages.rs:46-48 | sent with POST |
| DeleteMessagesRequest.DeleteMessages.BuildUrl | src/requests/open_client/delete_messages.rs:34-44 | pushes `devices`, the device id, `update_highest_message.json` and appends the secret, then the message id in decimal |
| DeleteMessagesRequest.MessageRecoverable | src/requests/open_client/delete_messages.rs:43 | the message id sent reads back as the id, and different ids are sent differently |
| DeleteMessagesRequest.Map | src/requests/open_client/delete_messages.rs:50-52 | `map` keeps only the request identifier: the success reply rebuilt from it is the decoded reply with status 1 and no error list; `MapRoundTrip` is the converse |
| DeleteMessagesRequest.MapRoundTrip | src/requests/open_client/delete_messages.rs:50-52 | the success reply for a request identifier dispatches to that identifier |
| DeleteMessagesRequest.FullUrl | src/requests/open_client/delete_messages.rs:60-72 | message 10 gives `1/devices/<device>/update_highest_message.json?secret=...&message=10` |
| AcknowledgeRequest.Acknowledge.GetMethod | src/requests/open_client/acknowledge.rs:43-45 | sent with POST |
| AcknowledgeRequest.Acknowledge.BuildUrl | src/requests/open_client/acknowledge.rs:31-41 | pushes `receipts`, the receipt, `acknowledge.json` and appends only the secret |
| AcknowledgeRequest.Map | src/requests/open_client/acknowledge.rs:47-49 | `map` keeps only the request identifier: the success reply rebuilt from it is the decoded reply with status 1 and no error list; `MapRoundTrip` is the converse |
| AcknowledgeRequest.MapRoundTrip | src/requests/open_client/acknowledge.rs:47-49 | the success reply for a request identifier dispatches to that identifier |
| AcknowledgeRequest.FullUrl | src/requests/open_client/acknowledge.rs:57-64 | the full URL is `1/receipts/<receipt>/acknowledge.json?secret=...` |

## Left out

- HTTP transport, the blocking and asynchronous clients, the futures wrapper and the mock
  server of the integration tests: network I/O. `Base.Dispatch` models what happens after a
  reply is decoded.
- JSON decoding itself: replies are taken as already-decoded records of optional fields. A
  malformed document, or a number outside `u8`, `u16` or `u32`, is a decode error of the
  JSON library. The subset types only keep the decoded values in range.
- Percent-encoding of path segments and query pairs, and the scheme and host of the base
  URL: both belong to the URL library. Segments and pairs are kept unescaped.
- Encoding a form body as `application/x-www-form-urlencoded`: the model stops at the list
  of pairs `FormParameters` returns.
- Base.GetError: the source panics when a failed reply has no error list. The model makes
  the list's presence a precondition instead.
- Every endpoint's `map`: the source panics when a field it unwraps is missing. The model
  makes presence a precondition, and the contract of `Map` is stated under it.
- Every request's `new` with only immutable fields: a datatype constructor stands for it.
- `Response` is generic over the request type, which ties each request to its reply types.
  The model passes the endpoint's `Map` to `Dispatch` explicitly instead.
- The error-chain error type and its foreign links (HTTP, TLS, JSON, I/O): only the
  service error `PushoverError` is modelled.
- The URL-comparison test helper (`src/lib.rs:89-103`): each `FullUrl` method stands for it
  by building the URL from the versioned base and stating its path and query.
