# Joystick lighthouse: decision logic in Dafny

A Raspberry Pi Pico reads a two-axis analog joystick with a push button and serves
the position as a small web page. A Flask server keeps the latest joystick record
in memory and answers `GET`/`POST`/`OPTIONS` on `/api/joystick`. This project
models the parts of both that decide something:

- `joystick.dfy` (module `Joystick`): the pure logic of `read_joystick` and
  `joystick_changed`. It covers normalising 12-bit ADC readings to centre-relative
  coordinates with the y axis inverted, the 0.2 deadzone, the eight-way if-chain
  of π/4 sectors, and the change predicate with its 0.1 per-axis threshold.
- `sampler.dfy` (module `Sampler`): one call of `read_joystick` as a step
  function over the single reference slot `last_joystick_state`. The slot is
  overwritten only when the sample counts as a change. The module also covers runs
  of successive calls and the polling loop of `main`. That loop and the HTTP
  handler (`send_html_response`, joystick.c:126) share the one slot. The model
  assumes the firmware is linked with the polling variant of `cyw43_arch`, in
  which lwIP runs its callbacks only from inside `cyw43_arch_poll()` in the same
  loop (joystick.c:239). Under that assumption the two never run at once, and any
  interleaving of them is a sequence of steps.
- `api.dfy` (module `Api`): `handle_joystick`. It is modelled as a pure function
  from the record, the request and the outcome of the database insert to the new
  record and the reply. The JSON body is a small datatype and Python truthiness
  is a predicate.
- `wrappers.dfy`: the `Option` type.

Floats are modelled as `real`. The deadzone test `sqrtf(x*x + y*y) < 0.2` becomes
`x*x + y*y < 0.04`, and `DeadzoneBySquares` proves the two agree for any
non-negative square root. The `atan2f` result is an input `atan2Pi`, the angle
divided by π, in [-1, 1]. So the sector boundaries are `1/8`, `3/8`, … `15/8`.

The labels follow the code, not compass intuition. Angle 0 (positive x) is
"Norte", and the labels run counter-clockwise through "Noroeste", "Oeste",
"Sudoeste", "Sul", "Sudeste", "Leste" and "Nordeste".

The direction is a datatype, not a string. The nine literals are pairwise
distinct (`LabelInjective`), so `strcmp` on two of them is label equality. The
initial slot `{0}` leaves `direction` a NULL pointer. This is `DirectionPtr.Null`
(see Findings).

## Model

| member | source | states |
|---|---|---|
| Joystick.NormaliseX | joystick.c:68 | x lies in [-1, 2047/2048]; it is 0 exactly for raw 2048; the raw value is recovered as (x + 1)·2048 |
| Joystick.NormaliseY | joystick.c:69-72 | y lies in [-2047/2048, 1]; it is 0 exactly for raw 2048; y is the negation of the x-normalisation of the same raw value (the axis is inverted) |
| Joystick.NormaliseMonotone | joystick.c:68-72 | a larger raw reading gives a strictly larger x and a strictly smaller y |
| Joystick.DeadzoneBySquares | joystick.c:75-76 | for any non-negative magnitude whose square is x²+y², `magnitude < DEADZONE` holds iff x²+y² < 0.04 |
| Joystick.WithinThresholdIsInDeadzone | joystick.c:75-79 | a position within 0.1 of the origin on both axes is inside the deadzone |
| Joystick.NormaliseAngle | joystick.c:91 | an atan2 angle in [-π, π] is mapped into [0, 2π) by adding either nothing or one full turn |
| Joystick.Sector | joystick.c:94-110 | the if-chain never yields "Centro" |
| Joystick.SectorExact | joystick.c:94-110 | the chain yields label d iff the angle lies in d's half-open π/4 sector (lower bound included; "Norte" covers [0, π/8) ∪ [15π/8, 2π)); so the chain is total and the sectors are disjoint |
| Joystick.SectorByRounding | joystick.c:94-110 | the chain agrees with an independent definition: round 4a to the nearest integer (halves up) and index the counter-clockwise label list modulo 8 |
| Joystick.Classify | joystick.c:75-111 | the direction is "Centro" iff x²+y² < 0.04; inside the deadzone x and y become exactly 0; outside they are kept and the label's sector holds the normalised angle |
| Joystick.Changed | joystick.c:47-55 | the corrected predicate: a sample whose direction differs from the slot's (including a NULL slot against any label) is always a change, and a sample equal to the slot in every field but the flag never is |
| Joystick.ChangedAsWritten | joystick.c:47-55 | the clauses are tried in order; when a numeric or button clause fires the verdict is true; otherwise, if either direction is NULL, `strcmp` is undefined (`None`); every defined verdict agrees with the corrected predicate `Changed` |
| Joystick.LabelInjective | joystick.c:86-109 | two label strings are equal iff the labels are equal, so `strcmp(a, b) != 0` means the labels differ |
| Joystick.ChangedSymmetric | joystick.c:48-54 | swapping the new sample and the reference gives the same verdict |
| Joystick.NotChangedAgainstItself | joystick.c:48-54 | a sample is never a change against a copy of itself, whatever the copy's `changed` flag |
| Joystick.ThresholdIsStrict | joystick.c:48 | moving exactly 0.1 on x alone is not a change; moving more than 0.1 is |
| Sampler.Sample | joystick.c:58-111 | the sample always has a real label; the button is pressed iff the pin reads low; inside the deadzone it is (0, 0, "Centro"); outside, the normalised coordinates are kept and the label is not "Centro" and matches the angle's sector |
| Sampler.Read | joystick.c:113-121 | the returned flag is the change predicate against the slot as it was before the call; the slot becomes the returned sample iff the flag is set and is otherwise left untouched |
| Sampler.ReadAsWritten | joystick.c:113-119 | where the code as written is defined it returns what `Read` returns; it is always defined once the slot holds a real label |
| Sampler.ReadAgainIsUnchanged | joystick.c:114-119 | reading the same inputs twice in a row gives `changed = false` on the second call and leaves the slot where the first call put it |
| Sampler.BootSlotDiffersFromRestOnlyInLabel | joystick.c:34 | the zeroed boot slot agrees with a centred, released sample on x, y and button, and differs only in having a NULL direction where the sample has "Centro" |
| Sampler.FirstReadReportsChange | joystick.c:34 | with the NULL direction read as "no label yet", the first reading after boot is always a change and fills the slot |
| Sampler.FirstReadAsWrittenUndefined | joystick.c:48-51 | as written, the first reading reaches `strcmp` with NULL iff the stick rests in the deadzone and the button is released |
| Sampler.RestAtBootIsUndefined | joystick.c:34-51 | concrete instance: raw (2048, 2048) with the button released is undefined on the first call |
| Sampler.Run | joystick.c:244 | a run returns one sample per reading, each with a real label; the final slot is the start slot or holds a real label |
| Sampler.Changes | joystick.c:245-251 | the logged samples are exactly those flagged as changed: every logged one is an output with the flag set, and every flagged output is logged |
| Sampler.SlotIsLatestChange | joystick.c:116-119 | after any run the slot is the last sample that reported a change, or the start slot if none did |
| Sampler.RunFromBootChanges | joystick.c:34 | a non-empty run from boot reports at least one change |
| Sampler.SlotSettlesAfterFirstRead | joystick.c:117-119 | after the first call from boot the slot's direction is never NULL again |
| Sampler.RunAsWritten | joystick.c:113-119 | where a run of the code as written is defined it equals the corrected run |
| Sampler.AsWrittenAgreesAfterFirstRead | joystick.c:51 | if the first call as written is defined, the whole run as written is defined and equals the corrected run |
| Sampler.Poll | joystick.c:238-256 | over every `read_joystick` call in order (the loop's and those the HTTP handler makes from `cyw43_arch_poll()`), the slot and the log end as in the functional run; every logged sample is flagged as changed; after a non-empty run something was logged, the slot is the last logged sample, and the slot has a real label |
| Api.FalsyValues | api.py:56 | a JSON body is falsy iff it is `null`, `false`, `0`, `""`, `[]` or `{}` |
| Api.Record | api.py:93 | the record always carries exactly the keys x, y, button and direction |
| Api.ButtonStringIsCaseInsensitiveTrue | api.py:66-67 | a string button is pressed iff it is "true" in any mix of upper and lower case ("TRUE" yes, "yes" no) |
| Api.LowerIdempotent | api.py:66-67 | lower-casing twice is lower-casing once, so `btn_val.lower()` leaves nothing further to fold |
| Api.Merge | api.py:61-71 | a present x, y or direction overwrites the old value verbatim and an absent one keeps it; a string button is true iff it lower-cases to "true"; any other present button takes its truthiness; an absent button keeps the old boolean |
| Api.Handle | api.py:42-95 | GET returns the record unchanged; OPTIONS leaves it untouched; an unreadable POST body gives 500 and leaves the record; the reply is 400 iff the POST body is falsy; a truthy non-object body gives 500 before any write; only a truthy object body can change the record, and it leaves the merged record even when the insert fails; for such a body the reply is 200 iff the insert succeeds; a 200 POST echoes the post-merge record |
| Api.FreshGetReportsRest | api.py:30-35 | a GET before any POST reports x 0.0, y 0.0, button released and direction "Centro" |
| Api.MergeIdempotent | api.py:61-71 | merging the same object twice gives the record of merging it once |
| Api.PostIdempotent | api.py:53-90 | repeating a POST leaves the record and the reply as the first POST left them |
| Api.PostRecordRoundTrip | api.py:61-71 | posting a record as returned by GET installs exactly that record, whatever was there before |
| Api.GetAfterPost | api.py:92-95 | a GET after a stored POST reports the merged record |
| Api.StoreFailureKeepsMerge | api.py:73-90 | a failing insert answers 500 but keeps the merged in-memory record |

## Left out

- ADC and GPIO set-up and reads (joystick.c:37-44, 62-65, 82): the raw readings and the button level are inputs of `Sampler.Reading`.
- `sqrtf`, `atan2f` and binary32 rounding: coordinates are `real`, the deadzone compares squares, and the angle is an input.
- Sampler.Poll: the readings `rs` must be every call of `read_joystick` in order. That means the loop's own calls (joystick.c:244) and also the calls `send_html_response` makes from inside `cyw43_arch_poll()` (joystick.c:126). `printed` is then what the two log blocks (joystick.c:130-136 and 245-251) print together, since both log exactly the samples flagged as changed. The loop's readings alone do not fix its slot or its log: an HTTP read can move the slot between two loop reads.
- Sampler.Sample: the supplied angle is not tied to x and y, because there is no trigonometry in the model; any angle in [-π, π] is accepted.
- HTML rendering with `snprintf`/`%.2f` and the `printf` logging (joystick.c:125-164, 246-250): these are formatting and output only. `Sampler.Changes` models which samples get logged.
- lwIP callbacks, Wi-Fi bring-up and the 100 ms timing of the loop (joystick.c:168-259): these are network and clock plumbing. `Sampler.Poll` takes the readings as a sequence.
- Flask routing, CORS headers, the SQLite schema, the insert itself and `/joystick/history` (api.py:13-27, 97-127): these are library and database wrappers. Whether the insert succeeds is an input of `Api.Handle`.
- Api.Handle: the text of the 500 message (`str(e)`) is not modelled; the reply records only which step raised.
- Api.Handle: each request is modelled as atomic. Flask's development server (api.py:132) handles requests on threads, so two POSTs can interleave between lines 61 and 71 and the echo at line 84 can show another request's merge. `Api.PostIdempotent` and the 200 echo hold only for requests handled one at a time.
- HEAD on `/api/joystick` is not modelled. Flask adds it to GET routes, but `handle_joystick` has no branch for it and returns `None`, which Flask turns into a 500.
- Api.Handle: which bodies make `request.get_json()` raise depends on the Flask version, so the parse outcome is an input.
- Api.Lower: only ASCII case mapping is modelled. No non-ASCII letter lower-cases to one of the letters of "true", so the button rule is unaffected.
- Python's distinction between JSON integers and floats, and the non-standard `NaN`/`Infinity` literals, are not modelled. A number is a `real`.

## Findings

| source | as written | input that shows it | evidently intended | confidence | as-written member | corrected member |
|---|---|---|---|---|---|---|
| joystick.c:51 | `last_joystick_state = {0}` leaves `direction` NULL, and `joystick_changed` passes it to `strcmp` whenever the numeric and button clauses do not fire | first call after boot with raw (2048, 2048) and the button released (`Sampler.RestAtBootIsUndefined`) | an empty slot differs from every sample, so the first reading is reported as a change and fills the slot | medium, not executed | Sampler.ReadAsWritten | Sampler.FirstReadReportsChange |

`Joystick.ChangedAsWritten` and `Sampler.RunAsWritten` model the code as written.
`Sampler.FirstReadAsWrittenUndefined` characterises exactly which first readings
hit the NULL pointer. `Sampler.AsWrittenAgreesAfterFirstRead` shows that the
undefined case can arise only on that first call. The rest of the model uses the
corrected predicate `Joystick.Changed`.
