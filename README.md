# x265 encoder plugin of libheif, modelled in Dafny

libheif hands HEVC encoding to plugins. The x265 plugin (`src/heif_encoder_x265.cc`) is a thin
adapter around the x265 encoder library. It does five things:

- it builds the plugin's display name in a fixed 80-char buffer;
- it maps the host's quality (0..100) to x265's constant rate factor (CRF);
- it clamps the logging level to [0,4] (X265_LOG_ERROR..X265_LOG_FULL), so X265_LOG_NONE (-1) cannot be set this way;
- it rounds the picture size down to even numbers;
- it pulls the encoded bitstream out one NAL unit at a time.

Each unit handed out loses its Annex B start code (zero or more `0x00` bytes followed by `0x01`,
from the byte stream format of Annex B of ITU-T H.265). Prefix SEI units whose first SEI message is
user_data_unregistered (payloadType 5) are dropped. A prefix SEI unit with that message in a later
position is handed out, because only the first message's byte is tested. Header byte `0x4e` is nal_unit_type 39 (PREFIX_SEI_NUT, Table 7-1 of ITU-T
H.265), and payloadType 5 is user_data_unregistered (Annex D of ITU-T H.265).

The model has these modules:

- `X265Params` (`params.dfy`): the CRF mapping, with C++ truncating division written out; the
  logging clamp; and `w & ~1`. These are pure functions with lemmas.
- `X265PluginName` (`plugin_name.dfy`): the static 80-char name buffer. It is a class over an
  `array<char>`, and `strlen`, `strcpy` and `strcat` are methods with loops. `Build` is
  `x265_plugin_name`, proved against the function `ExpectedName`.
- `HevcNal` (`nal.dfy`): start codes, the SEI filter, and the reference definition `Visible` of
  what a consumer should receive. `Pull` specifies one call of `x265_get_compressed_data`.
  `PullAsWritten` is the loop exactly as the source has it (see Findings).
- `X265Encoder` (`encoder.dfy`): the adapter state `x265_encoder_struct`. `Encoder` has the
  fields `hasEncoder`, `nals`, `numNals` and `counter`, and points to a `Param` object with the
  parameter fields the adapter writes. `GetCompressedData` has the source's nested loops and is
  proved equal to `Pull`.

The x265 library is opaque, so its outputs are inputs here:

- `EncodeImage` receives the batch that encoding the picture returns.
- It also receives the batches that later flush calls (`x265_encoder_encode` without a picture)
  will return. These are kept in the field `flushOutput`.
- When `flushOutput` is empty, a flush call returns 0 and sets `num_nals` to 0. This is how the
  x265 library reports that it has nothing left to output.
- The version string and the rate factor chosen by the "slow" preset are parameters.

Each call of `GetCompressedData` returns the first visible unit of the units still pending, and
leaves the rest pending (`HevcNal.PullDeliversNext`). So successive calls deliver every visible
unit once, in order, and return null exactly when none is left.

## Model

| member | source | states |
|---|---|---|
| `X265Params.TruncHalf` | src/heif_encoder_x265.cc:126 | C++ division by 2: the quotient is truncated toward zero, for both signs of the numerator |
| `X265Params.TruncHalfDiffersFromEuclidean` | src/heif_encoder_x265.cc:126 | for -1 the C++ quotient is 0 while Dafny's Euclidean quotient is -1 |
| `X265Params.QualityToCrf` | src/heif_encoder_x265.cc:123-126 | for quality 0..100 the CRF lies in [0,50] and 2·crf ≤ 100-quality < 2·crf+2; above 100 the CRF is 100-quality halved toward zero; calls that would overflow `100-quality` are excluded |
| `X265Params.QualityLowestAccepted` | src/heif_encoder_x265.cc:126 | the lowest accepted quality, where `100-quality` is exactly INT32_MAX, gives 1073741823 |
| `X265Params.QualityDocumentedPoints` | src/heif_encoder_x265.cc:123-125 | quality 0, 50 and 100 give CRF 50, 25 and 0 |
| `X265Params.QualityToCrfNonIncreasing` | src/heif_encoder_x265.cc:126 | a higher quality never gives a higher CRF |
| `X265Params.QualityJustAboveRange` | src/heif_encoder_x265.cc:126 | qualities 101 and 102 give 0 and -1 |
| `X265Params.ClampLogLevel` | src/heif_encoder_x265.cc:146-149 | the stored level is in [0,4]; a level already in [0,4] is kept; otherwise it is the nearest value in [0,4] |
| `X265Params.ClampLogLevelIdempotent` | src/heif_encoder_x265.cc:146-147 | clamping twice equals clamping once |
| `X265Params.ClampLogLevelMonotone` | src/heif_encoder_x265.cc:146-147 | the clamp preserves order |
| `X265Params.ClearLowestBit` | src/heif_encoder_x265.cc:176-177 | `w & ~1` is even, at most `w` and at least `w-1`, and non-negative for non-negative `w` |
| `X265PluginName.ExpectedName` | src/heif_encoder_x265.cc:55-66 | the name starts with "x265 HEVC encoder"; it is that followed by " (" version ")" exactly when len(version)+17+4 < 80, and otherwise the base name alone; its length plus NUL is at most 80 |
| `X265PluginName.NameBuffer.constructor` | src/heif_encoder_x265.cc:50-52 | the static 80-char buffer starts out zero-filled, i.e. holding the empty string |
| `X265PluginName.NameBuffer.Strlen` | src/heif_encoder_x265.cc:59 | `strlen` of the buffer is the length of the string it holds |
| `X265PluginName.NameBuffer.Strcpy` | src/heif_encoder_x265.cc:57 | after `strcpy` the buffer holds exactly the copied string, NUL-terminated |
| `X265PluginName.NameBuffer.Strcat` | src/heif_encoder_x265.cc:60-62 | after `strcat` the buffer holds the old string followed by the appended one |
| `X265PluginName.NameBuffer.Build` | src/heif_encoder_x265.cc:55-66 | `x265_plugin_name` leaves `ExpectedName(version)` in the buffer and returns it |
| `HevcNal.LeadingZeros` | src/heif_encoder_x265.cc:227-231 | the number of `0x00` bytes the first skip loop steps over: all bytes before it are zero and the next one is not |
| `HevcNal.StartCodeLength` | src/heif_encoder_x265.cc:227-235 | the start code is the leading zeros plus one `0x01` byte |
| `HevcNal.StripStartCode` | src/heif_encoder_x265.cc:225-235 | the returned size is the unit's size minus the start code, and putting the start code back gives the unit |
| `HevcNal.StripAddStartCode` | src/heif_encoder_x265.cc:225-235 | stripping undoes adding a start code of any number of zero bytes |
| `HevcNal.Emitted` | src/heif_encoder_x265.cc:238-249 | stated on the raw unit: it is dropped exactly when at least 3 bytes follow the start code and the first and third of them are `0x4e` and 5; a unit handed out is the unit with its start code removed |
| `HevcNal.LaterUserDataSeiPasses` | src/heif_encoder_x265.cc:240 | a prefix SEI unit whose first message has payloadType 6 and whose second has payloadType 5 is handed out: only the first message's type byte is tested |
| `HevcNal.Visible` | src/heif_encoder_x265.cc:219-250 | the units a consumer should receive from a run of units: never an unregistered-user-data SEI, never more than the run |
| `HevcNal.Pull` | src/heif_encoder_x265.cc:219-264 | one call: the cursor stays within the batch; a returned unit is the stripped unit just before the new cursor and is not a filtered SEI; null comes with an empty batch and no batches left |
| `HevcNal.PullDeliversNext` | src/heif_encoder_x265.cc:219-264 | the visible pending units are the returned unit followed by the visible units still pending afterwards: units are delivered in order, each exactly once |
| `HevcNal.PullNullIffDrained` | src/heif_encoder_x265.cc:253-264 | a call returns null exactly when no visible unit is pending |
| `HevcNal.PullAsWritten` | src/heif_encoder_x265.cc:219-265 | the loop as the source writes it, with no cursor reset before the flush call; its filter still never returns an unregistered-user-data SEI |
| `HevcNal.AsWrittenDropsFlushedUnit` | src/heif_encoder_x265.cc:219-258 | with one unit from encoding and one from the flush, the loop as written returns null on the second call while the corrected loop returns the flushed unit |
| `X265Encoder.Param.constructor` | src/heif_encoder_x265.cc:84-91 | new parameters: frame rate 1/1, source size 0×0, log level NONE (-1), and the preset's rate factor |
| `X265Encoder.Encoder.constructor` | src/heif_encoder_x265.cc:79-104 | a new encoder has no encoder instance, an empty batch, `num_nals` 0 and cursor 0 |
| `X265Encoder.Encoder.SetParamQuality` | src/heif_encoder_x265.cc:119-130 | stores `QualityToCrf(quality)` as the rate factor and changes no other parameter |
| `X265Encoder.Encoder.SetParamLoggingLevel` | src/heif_encoder_x265.cc:142-153 | the two `if`s store `ClampLogLevel(logging)` and change no other parameter |
| `X265Encoder.Encoder.EncodeImage` | src/heif_encoder_x265.cc:163-201 | the source size becomes the luma size rounded down to even numbers; an encoder instance is open; the cursor is 0 on the fresh batch, so every unit of the picture is pending |
| `X265Encoder.Encoder.Flush` | src/heif_encoder_x265.cc:253-258 | a flush call yields the next batch with a positive result, or an empty batch and result 0; it requires the cursor already reset to 0, as in the corrected loop |
| `X265Encoder.Encoder.SkipStartCode` | src/heif_encoder_x265.cc:225-235 | the pointer and size stepping skip exactly the start code |
| `X265Encoder.Encoder.GetCompressedData` | src/heif_encoder_x265.cc:204-266 | without an encoder instance: null data, size 0, nothing changed; otherwise the result and the new state are those of `Pull`, with size equal to the returned unit's length |

## Left out

- x265 library calls are not modelled: `x265_param_alloc`, `x265_param_default_preset`, `x265_param_apply_profile`, `x265_encoder_open`, `x265_encoder_close`, `x265_encoder_encode`, `x265_picture_alloc`, `x265_picture_init` and `x265_picture_free`. They are foreign code. Their results enter as parameters (`presetRfConstant`, the batches passed to `EncodeImage`, the version string).
- Failure of `x265_encoder_open`: the model assumes the open always succeeds, so `EncodeImage` always leaves an encoder instance.
- `x265_free_encoder`, `new` and `delete`: resource release only.
- Plane and stride retrieval, the `bitDepth` setting and the `heif_image_get_width`/`height` calls: host-library calls. The luma size enters `EncodeImage` as parameters.
- `x265_init_plugin`, `x265_deinit_plugin`, `x265_query_input_colorspace`, the `encoder_plugin_x265` table and `get_encoder_plugin_x265`: no logic.
- `x265_set_param_lossless`: it only copies one field.
- The `heif_error` results are not modelled: every path returns success.
- Units are assumed to start with a start code (`WellFormed`). The source reads `**data` before testing `*size > 0`, so a unit with no non-zero byte, the empty unit included, is read past its end.
- `WellFormed` also excludes units whose first non-zero byte is not `0x01`. The source skips that byte without checking it: for `02 40 01` it drops the `0x02` and returns `40 01`, size 2. The model does not cover this behaviour.
- Payload bytes are not interpreted beyond the three that the SEI filter reads.
- NAL sizes and `num_nals` are unbounded naturals; the `uint32_t` width is not modelled.
- `X265Encoder.Encoder.SetParamQuality`: requires that `100 - quality` does not overflow a C int, because in C++ that overflow is undefined.
- `X265Encoder.Encoder.Flush`: models the flush only as the corrected loop calls it, with the cursor already reset to 0. The `counter == 0` requires does not come from the x265 call. It keeps `counter <= numNals` true after the batch is swapped. The loop as written calls the flush with `nal_output_counter == num_nals`, and `HevcNal.PullAsWritten` models that.
- `X265Encoder.Encoder.GetCompressedData`: models the loop with the cursor reset that the Findings row below gives. It does not model the loop as written; `HevcNal.PullAsWritten` does that.

## Findings

| source | as written | input that shows it | evidently intended | confidence | as-written member | corrected member |
|---|---|---|---|---|---|---|
| src/heif_encoder_x265.cc:219-264 | when the current batch is used up, the loop calls `x265_encoder_encode` for the next batch but leaves `nal_output_counter` at the old `num_nals` | encoding returns one unit (a VPS, `00 00 00 01 40 01`) and the flush returns one more (an IDR slice, `00 00 01 26 01 af`): the first call returns the VPS, and the second call skips the slice because the cursor is already at 1, so it returns null | reset `nal_output_counter` to 0 before each flush call, so that every unit of every batch is delivered once, in order | medium; not executed | `HevcNal.PullAsWritten`, `HevcNal.AsWrittenDropsFlushedUnit` | `HevcNal.Pull`, `HevcNal.PullDeliversNext`, `X265Encoder.Encoder.GetCompressedData` |
