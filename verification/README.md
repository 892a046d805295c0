# Dictionary-attack screen of the NFC application: a Dafny model

This project models the progress screen that the NFC application shows while
it recovers Mifare Classic keys by a dictionary attack (plain or nested). The
attack engine reports progress to the screen through a reset operation and
one-field setters. On every redraw the screen derives what to show from its
view model:

- a header that depends on the nested-attack phase, the tag's PRNG type and
  the authentication backdoor;
- a status line (nonce collection, key-reuse check or sector unlocking);
- a progress bar with an "a/b" text;
- the keys-found and sectors-read counters.

Modules:

- `Ints` (`ints.dfy`): the `uint8_t`, `uint16_t` and `size_t` widths of the
  view model, and the truncation to `uint8_t` used for computed sectors.
- `MfClassicPoller` (`mf_classic_poller.dfy`): the three closed
  enumerations the screen displays: nested phase, PRNG type, backdoor.
- `Progress` (`progress.dfy`): the bar's fill as an exact quotient. Besides a
  ratio it can be `PosInfinity` or `NotANumber`, which is what a float
  division by a zero `sectors_total` gives. The `> 1.0f` clamp maps +inf to 1
  and leaves NaN alone.
- `DictAttackModel` (`dict_attack_model.dfy`): the view-model record, the
  reset, every setter, and the `Command` type that names one call of this
  interface. A frame predicate `OnlyChanged` over an enumeration of the
  record's fields states "nothing else changes".
- `DictAttackHeader` (`dict_attack_header.dfy`): the header computation. It
  is written as the source's sequence of string assignments and appends, run
  on the previous header. A declarative reference is proved equal to it.
- `DictAttackDraw` (`dict_attack_draw.dfy`): the draw routine as a pure
  function from the model to the displayed screen and the model it leaves
  behind. Only the header changes in that model.

The header is state. The header switch gives no title to the phases `None`
and `Finished`. In `Finished` the previous header is kept, and " (Hard)" and
" (Backdoor)" are appended again on every draw. In `None` only " (Hard)" is
appended; a found backdoor instead replaces the header with "Backdoor Read". The model takes the previous header as input.
It proves three things about this:

- a redraw is idempotent exactly when the tag is lost, the draw overwrites
  the header, or there is nothing to append;
- in the other cases the header carries `n` copies of the suffix after `n`
  draws;
- with a hard PRNG in `Finished` the header grows without bound.

The `> 1.0f` clamp (dict_attack.c:132-134) does not bound every fill to
[0, 1]. The nested-dictionary phases and weak-PRNG nonce collection divide by
`sectors_total` (dict_attack.c:100 and 109). When that count is 0 and the
target sector is 0, the division gives NaN, and the comparison does not catch
it. `ProgressBar` states exactly when this happens.

## Model

| member | source | states |
|---|---|---|
| Ints.ToU8 | applications/main/nfc/views/dict_attack.c:98-99 | storing a computed sector in a `uint8_t` keeps values below 256 and is congruent to the input modulo 256 |
| Progress.Divide | applications/main/nfc/views/dict_attack.c:100 | the float quotient is an exact ratio iff the divisor is non-zero; it is NaN iff both operands are zero, +inf otherwise |
| Progress.Clamp | applications/main/nfc/views/dict_attack.c:132-134 | after the clamp the value is never +inf; it is NaN iff it was NaN, otherwise in [0, 1]; values above 1 (including +inf) become exactly 1, values in [0, 1] are unchanged |
| Progress.ClampMonotone | applications/main/nfc/views/dict_attack.c:117-134 | over a fixed denominator the clamped quotient does not decrease as the numerator grows |
| DictAttackModel.FieldsDetermineModel | applications/main/nfc/views/dict_attack.c:13-29 | the field enumeration covers the record: models agreeing on every field are equal |
| DictAttackModel.Reset | applications/main/nfc/views/dict_attack.c:191-213 | all counters become 0, `is_key_attack` false, phase `None`, PRNG and backdoor `Unknown`, the header empty; `card_detected` and `key_attack_current_sector` are untouched |
| DictAttackModel.SetHeader | applications/main/nfc/views/dict_attack.c:229-238 | the header becomes the given text; no other field changes |
| DictAttackModel.SetCardState | applications/main/nfc/views/dict_attack.c:240-245 | `card_detected` becomes the given flag; no other field changes |
| DictAttackModel.SetSectorsTotal | applications/main/nfc/views/dict_attack.c:247-255 | `sectors_total` becomes the given value; no other field changes |
| DictAttackModel.SetSectorsRead | applications/main/nfc/views/dict_attack.c:257-262 | `sectors_read` becomes the given value; no other field changes |
| DictAttackModel.SetKeysFound | applications/main/nfc/views/dict_attack.c:264-269 | `keys_found` becomes the given value; no other field changes |
| DictAttackModel.SetCurrentSector | applications/main/nfc/views/dict_attack.c:271-279 | `current_sector` becomes the given value; no other field changes |
| DictAttackModel.SetTotalDictKeys | applications/main/nfc/views/dict_attack.c:281-289 | `dict_keys_total` becomes the given value; no other field changes |
| DictAttackModel.SetCurrentDictKey | applications/main/nfc/views/dict_attack.c:291-299 | `dict_keys_current` becomes the given value; no other field changes |
| DictAttackModel.SetKeyAttack | applications/main/nfc/views/dict_attack.c:301-312 | `is_key_attack` becomes true and `key_attack_current_sector` the given sector; no other field changes |
| DictAttackModel.ResetKeyAttack | applications/main/nfc/views/dict_attack.c:314-319 | only `is_key_attack` changes, to false; the last key-reuse sector stays |
| DictAttackModel.SetNestedPhase | applications/main/nfc/views/dict_attack.c:321-326 | the phase becomes the given one; no other field changes |
| DictAttackModel.SetPrngType | applications/main/nfc/views/dict_attack.c:328-333 | the PRNG type becomes the given one; no other field changes |
| DictAttackModel.SetBackdoor | applications/main/nfc/views/dict_attack.c:335-340 | the backdoor becomes the given one; no other field changes |
| DictAttackModel.SetNestedTargetKey | applications/main/nfc/views/dict_attack.c:342-350 | `nested_target_key` becomes the given value; no other field changes |
| DictAttackModel.SetMsbCount | applications/main/nfc/views/dict_attack.c:352-357 | `msb_count` becomes the given value; no other field changes |
| DictAttackModel.ApplyKeeps | applications/main/nfc/views/dict_attack.c:191-357 | every reset or setter call leaves each field outside its write set as it was |
| DictAttackModel.ApplyOverwrites | applications/main/nfc/views/dict_attack.c:191-357 | what a call writes does not depend on the model it is applied to |
| DictAttackModel.ApplyIdempotent | applications/main/nfc/views/dict_attack.c:191-357 | issuing the same call twice equals issuing it once |
| DictAttackModel.ResetErases | applications/main/nfc/views/dict_attack.c:191-213 | a reset erases any earlier call except `set_card_state` and `set_key_attack` |
| DictAttackModel.ResetForgets | applications/main/nfc/views/dict_attack.c:191-213 | two models reset to the same model iff they agree on `card_detected` and `key_attack_current_sector` |
| DictAttackHeader.HeaderMatchesReference | applications/main/nfc/views/dict_attack.c:43-73 | with the tag present, the header edits give the reference header: "Backdoor Read" for phase `None` with a backdoor; otherwise the phase title, or the previous header for `None`/`Finished`, followed by " (Hard)" for a hard PRNG and then " (Backdoor)" for a found backdoor |
| DictAttackHeader.OverwriteForgetsPrevious | applications/main/nfc/views/dict_attack.c:43-73 | for a titled phase, or phase `None` with a backdoor, the new header does not depend on the previous one |
| DictAttackHeader.HeaderAccumulates | applications/main/nfc/views/dict_attack.c:59-73 | for `None`/`Finished` without the "Backdoor Read" case, the new header is the previous one followed by the suffix |
| DictAttackDraw.StatusLine | applications/main/nfc/views/dict_attack.c:77-91 | three-way priority: `CollectNtEnc` shows the nonce sector `nested_target_key / (Weak ? 4 : 2)` mod 256; otherwise a running key-reuse check shows its sector; otherwise the current sector |
| DictAttackDraw.ProgressBar | applications/main/nfc/views/dict_attack.c:92-134 | per phase group, the text is target sector/`sectors_total`, weak collection sector/`sectors_total`, `msb_count`/256, or the dictionary cursor shown as "1/total" at 0; the fill equals the text's quotient, clamped to [0, 1], except for the 1/total rule; the dictionary fill is 0 when nothing was tried or the total is 0; NaN occurs exactly for 0/0 outside the dictionary phases |
| DictAttackDraw.Redrawn | applications/main/nfc/views/dict_attack.c:33-73 | a draw changes only the header, and only while the tag is present, where it becomes the reference header |
| DictAttackDraw.Draw | applications/main/nfc/views/dict_attack.c:31-149 | a lost tag shows the lost-tag message and leaves the model as it was; otherwise the screen shows the new header, the status line, the bar, keys found out of `sectors_total * 2`, and sectors read out of `sectors_total` |
| DictAttackDraw.RedrawIdempotent | applications/main/nfc/views/dict_attack.c:43-73 | drawing again gives the same frame iff the tag is lost, the draw overwrites the header, or the suffix is empty |
| DictAttackDraw.RedrawsAccumulate | applications/main/nfc/views/dict_attack.c:59-73 | in `None`/`Finished` without "Backdoor Read", after `n` draws the header is the original followed by `n` copies of the suffix, and nothing else has changed |
| DictAttackDraw.HeaderGrowsWhenFinishedHard | applications/main/nfc/views/dict_attack.c:63-65 | in `Finished` with a hard PRNG, `n` draws add at least `n` times " (Hard)" to the header's length |
| DictAttackDraw.RedrawsSettle | applications/main/nfc/views/dict_attack.c:43-73 | when the draw overwrites the header, any number of further draws leave the model as the first draw did |
| DictAttackDraw.DictProgressMonotone | applications/main/nfc/views/dict_attack.c:116-134 | within one dictionary pass the bar's fill does not decrease as `dict_keys_current` grows; with an empty dictionary the fill is 0 for every cursor |
| DictAttackDraw.NestedProgressMonotone | applications/main/nfc/views/dict_attack.c:93-101 | in the nested-dictionary phases the fill does not decrease as `nested_target_key` grows, while the target sector fits a `uint8_t` |
| DictAttackDraw.CollectionStatusMatchesBar | applications/main/nfc/views/dict_attack.c:77-110 | in weak-PRNG `CollectNtEnc` the status line and the bar text name the same sector (`nested_target_key / 4`) |
| DictAttackDraw.ResetScreen | applications/main/nfc/views/dict_attack.c:191-213 | after a reset with the tag present, the screen shows an empty header, "Unlocking sector: 0", an empty bar labelled "1/0", and zero keys and sectors |

## Left out

- The poller operations declared in `lib/nfc/protocols/mf_classic/mf_classic_poller.h` (nonce requests, authentication, nested authentication, halt, block and value operations, frame sends) and the attack engine behind them are left out. Their bodies are not part of this model, so only the three enumerations are used.
- `dict_attack_alloc`, `dict_attack_free` and `dict_attack_get_view` are memory management and are left out.
- The locking `with_view_model` wrapper and its redraw-request flag are left out. They concern concurrency and scheduling, not the model's contents.
- `dict_attack_set_callback`, the input callback and the "Skip" button (dict_attack.c:148-163, 221-227) are left out. They are input wiring; the skip event carries no model state.
- Canvas drawing, fonts and coordinates are left out. So is `snprintf` formatting into the 32-byte buffer (dict_attack.c:40): each text is kept as the numbers it shows. On the 32-bit target every text fits that buffer, so nothing is truncated. The longest is "Reuse key check for sector: 255" at 31 characters; the longest "%zu/%zu" text is "4294967295/4294967295" at 21.
- Float rounding is left out: the fill is kept as an exact quotient. Three steps round in the source: the two `(float)` conversions of the operands and the division (dict_attack.c:100, 109, 113, 119). Above 2^24 the conversions can round a count; for example `dict_keys_current` = 2^24+1 and `dict_keys_total` = 2^24 both become 16777216.0f. The source's quotient is then exactly 1.0f and is not clamped, while the exact ratio is above 1 and is. The clamp decision can therefore differ from the model's, but the clamped value agrees with the exact clamp up to rounding; in that example both are 1.
- How the progress-bar widget draws a NaN fill is not modelled. The widget's code is not part of this model.
- The collection status line is drawn twice at the same position (dict_attack.c:81 and 91). It is modelled once, since the second drawing shows the same text.
- NestedProgressMonotone: stated only while `nested_target_key / divisor` is below 256. Beyond that the source's `uint8_t` truncation wraps the sector back to 0. A Mifare Classic tag has at most 40 sectors, so real target keys never reach that range.
