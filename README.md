# A verified model of a PHP score-to-WAVE synthesiser

The system reads a plain-text score and turns it into a list of timed note
events. It plays those events on a marimba and writes the result as a
16-bit mono WAVE file at 44100 samples per second. It can also read WAVE
files back.

The model covers five pieces of the system:

- **The WAVE writer** (`wave_writer.dfy`, class `WaveWriter.Writer`).
  - `open` checks channels, sample size and rate, then writes the canonical
    44-byte PCM header: a RIFF descriptor, a `fmt ` subchunk and a `data`
    header, with two zero size placeholders.
  - `write` appends two bytes per amplitude, whatever the sample size.
  - `add` keeps a running byte count.
  - `close` patches the two size fields in place.
  - The file on disk is the byte sequence `file`.
- **The WAVE reader** (`wave_reader.dfy`, class `WaveReader.Reader` and
  the specification function `Decode`).
  - It runs the chain of header checks and stores channels, sample size
    and rate.
  - It unpacks everything after byte 44 and groups the values by channel.
  - Its quirks are kept as the code has them:
    - a rejected header still makes `read` return true;
    - `0x8000` is not sign-extended;
    - the stereo decoders pair values off by one.
- **The round trip** (`wave_roundtrip.dfy`): what the reader makes of the
  files the writer produces.
- **The score parser** (`scorer.dfy`, class `Scoring.Scorer`).
  - It works over an input cursor (`input.dfy`, class `TextInput.Input`).
  - The seven anchored regular expressions the parser passes to the cursor
    are replaced by hand-written matchers (`patterns.dfy`).
  - Note families come first, then instructions: speed changes, single
    notes with an optional `+beats`, chords and rests.
  - Each note becomes an `Event(time, frequency, duration)`.
  - Each read method is proved to do what a specification function on the
    text and the parse state says (`SpeedRead`, `NoteRead`, `ChordRead`,
    `FamilyRead`, `Families`, `Instructions`, ...). `ScoreOf` is the score
    of a whole text, and `GetScore` is proved to return it.
  - These functions are stated on the characters of the text. The
    matchers are proved to agree with them.
- **The synthesiser** (`synthesizer.dfy`, class `Synthesis.Synthesizer`).
  - It keeps a buffer of sounding samples and the buffer's start time.
  - A later note first flushes the buffer up to its onset, padding with
    zeros.
  - Each note's sound is then mixed into the buffer at a quarter of its
    amplitude, and sounds are cached by `frequency:spread`.
  - The specification function `Synthesis.Timeline` gives the whole
    sequence of samples a score produces. `Synthesize` is proved to write
    exactly the WAVE file of that sequence.

The model uses PHP 8 semantics where PHP versions differ:

- `fread` of 0 bytes throws `ValueError`.
- Division by zero throws `DivisionByZeroError`.
- `1 << k` on 64-bit integers gives 0 for `k >= 64`.

## Model

| member | source | states |
|---|---|---|
| WaveFormat.LE16 | src/Wave/Writer.php:125 | the two bytes of `pack('v', n)` read back, low byte first, as n modulo 2^16 |
| WaveFormat.LE32 | src/Wave/Writer.php:115 | the four bytes of `pack('V', n)` read back, little-endian, as n modulo 2^32 |
| WaveFormat.BE32 | src/Wave/Writer.php:115 | the four bytes of `pack('N', n)` read back, big-endian, as n modulo 2^32 |
| WaveFormat.TagsSpellNames | src/Wave/Writer.php:35-38 | the four tags packed big-endian are the ASCII bytes of "RIFF", "WAVE", "fmt " and "data" |
| WaveFormat.Round | src/Wave/Writer.php:142 | `round` is within 1/2 of its argument, and halves go away from zero |
| WaveWriter.MaxAmplitude | src/Wave/Writer.php:137 | `1 << (quality * 8 - 2)` is a quarter of 2^8 for 8-bit and of 2^16 for 16-bit samples |
| WaveWriter.EncodeSamples | src/Wave/Writer.php:135-147 | `write` emits exactly two bytes per value, even for 8-bit samples |
| WaveWriter.PackWordsReads | src/Wave/Writer.php:139-145 | every word packed by `v*` reads back at its own offset as the word modulo 2^16 |
| WaveWriter.PackWordsAppend | src/Wave/Writer.php:145 | packing a concatenation is the concatenation of the packings |
| WaveWriter.EncodeSamplesWords | src/Wave/Writer.php:139-145 | value i reads back from bytes 2i and 2i+1 as `(int)round(value * maxAmplitude)` modulo 2^16 |
| WaveWriter.EncodeSamplesAppend | src/Wave/Writer.php:135-154 | two writes append the same bytes as one write of the concatenated values |
| WaveWriter.AppendKeepsLayout | src/Wave/Writer.php:135-154 | after a further write, the file is the header plus the encoding of all values written so far |
| WaveWriter.Patch32Reads | src/Wave/Writer.php:164-176 | a patched size field reads back as the new size modulo 2^32 |
| WaveWriter.FinalizedSizes | src/Wave/Writer.php:156-176 | after `close`, bytes 4..7 hold fileSize-8 and bytes 40..43 hold fileSize-44, modulo 2^32 |
| WaveWriter.FinalizedKeepsOtherBytes | src/Wave/Writer.php:156-176 | `close` changes no byte outside offsets 4..7 and 40..43 |
| WaveWriter.HeaderFields | src/Wave/Writer.php:113-133 | the 44-byte header: tags RIFF/WAVE/fmt /data, size 16, format 1, the channels and rate as given, byte rate channels·quality·rate, block align channels·quality, bits per sample quality·8, and zero size placeholders |
| WaveWriter.FormatFields | src/Wave/Writer.php:119-127 | the fmt subchunk fields at offsets 12..35, as a reader sees them |
| WaveWriter.FinalizedKeepsFields | src/Wave/Writer.php:156-176 | patching the sizes leaves every other header field and the payload as they were |
| WaveWriter.WaveFileTags | src/Wave/Writer.php:113-133 | a finished file carries the four tags, PCM size 16 and format 1 |
| WaveWriter.WaveFileFormat | src/Wave/Writer.php:119-127 | a finished file carries channels, rate, byte rate, block align and bits per sample |
| WaveWriter.WaveFileSizes | src/Wave/Writer.php:72-176 | after open, one write of n values and close: RIFF size 36+2n, data size 2n, and the payload is the encoded values |
| WaveWriter.HeaderPrefixReads | src/Wave/Writer.php:113-133 | header fields read the same whatever bytes follow the header |
| WaveWriter.EmptyWaveFile | src/Wave/Writer.php:149-176 | open then close with no write gives 44 bytes with RIFF size 36 and data size 0 |
| WaveWriter.Writer.Open | src/Wave/Writer.php:72-111 | channels are checked first, then sample size, then rate, each with its own error; an error leaves the writer untouched; on success the parameters are stored, the file is exactly the header and fileSize is 44 |
| WaveWriter.Writer.Begin | src/Wave/Writer.php:86-95 | the parameters are recorded, the file holds just the header and nothing has been written |
| WaveWriter.Writer.WriteHeader | src/Wave/Writer.php:93-95 | the three header parts append exactly the 44 header bytes |
| WaveWriter.Writer.WriteChunkDescriptor | src/Wave/Writer.php:113-117 | appends the 12-byte RIFF descriptor and grows fileSize by 12 |
| WaveWriter.Writer.WriteFormatSubChunk | src/Wave/Writer.php:119-127 | appends the 24-byte fmt subchunk and grows fileSize by 24 |
| WaveWriter.Writer.WriteDataHeader | src/Wave/Writer.php:129-133 | appends the 8-byte data header and grows fileSize by 8 |
| WaveWriter.Writer.Add | src/Wave/Writer.php:149-154 | appends the bytes and grows fileSize by their number, nothing else changes |
| WaveWriter.Writer.Write | src/Wave/Writer.php:135-147 | appends the encoding of the values, grows fileSize by 2·n, and keeps the file equal to header + encoding of everything written |
| WaveWriter.Writer.Close | src/Wave/Writer.php:156-162 | the file becomes the finished `WaveFile` of all values written, with the same length |
| WaveWriter.Writer.UpdateChunkDescriptor | src/Wave/Writer.php:164-169 | overwrites offset 4 with fileSize-8 |
| WaveWriter.Writer.UpdateDataHeader | src/Wave/Writer.php:171-176 | overwrites offset 40 with fileSize-44 |
| WaveFormat.ReadLE16 | src/Wave/Reader.php:89 | an unpacked `v` field is in [0, 2^16) |
| WaveReader.Unpack | src/Wave/Reader.php:119-127 | 8-bit payloads unpack byte for byte (each in 0..255); 16-bit payloads give floor(size/quality) little-endian words in [0, 2^16), with integer keys only when the count is whole |
| WaveReader.UnpackWords | src/Wave/Reader.php:119-127 | for a sample size of 2 or more, value k is the little-endian word at bytes 2k and 2k+1 of the payload |
| WaveReader.Payload | src/Wave/Reader.php:113-131 | ValueError exactly when nothing follows byte 44, DivisionByZero exactly for a non-empty payload with sample size 0, otherwise the unpacked bytes from offset 44 to the end |
| WaveReader.Fill | src/Wave/Reader.php:198-201 | for a 16-bit n, the result is in (-2^15, 2^15] and congruent to n modulo 2^16 |
| WaveReader.Lookup | src/Wave/Reader.php:166 | `$values[$i]` is null unless the 1-based array has that integer key |
| WaveReader.MonoSamples | src/Wave/Reader.php:156-182 | the mono decoders give one mono sample per value |
| WaveReader.LowQualityMono | src/Wave/Reader.php:137-159 | 8-bit mono: one sample per payload byte, in file order, each the byte itself and so in 0..255 |
| WaveReader.StereoPairs | src/Wave/Reader.php:161-196 | the stereo decoders produce ceil(n/2) pairs |
| WaveReader.ReadAnswersTrue | src/Wave/Reader.php:44-74 | an opened file makes `read` return true unless it throws, which needs an accepted header; a rejected header returns true and leaves the samples as they were |
| WaveReader.ReadErrors | src/Wave/Reader.php:113-119 | an accepted header followed by no payload throws ValueError; a non-empty payload with sample size 0 throws DivisionByZero; nothing else throws |
| WaveReader.FieldsBeforeChecks | src/Wave/Reader.php:86-102 | channels, `bitsPerSample >> 3` and rate are stored from any file with a good descriptor and 24 format bytes, even when the format checks then fail |
| WaveReader.HeaderChecks | src/Wave/Reader.php:76-111 | the header passes exactly when RIFF, WAVE, fmt , size 16, format 1 and data are all in place in a file of at least 44 bytes |
| WaveReader.BitOrBounds | src/Wave/Reader.php:139 | a bitwise or lies between the larger operand and the sum |
| WaveReader.DecoderTypeOf | src/Wave/Reader.php:139 | with one or two channels, the type is 2·(quality-1) + channels-1 |
| WaveReader.DecoderSelection | src/Wave/Reader.php:137-154 | which sample sizes and channel counts reach decoders 0, 1 and 2; everything else goes to 16-bit stereo |
| WaveReader.FillInverts | src/Wave/Reader.php:198-201 | `fill` undoes the writer's modulo 2^16 for every k in (-2^15, 2^15] |
| WaveReader.FillKeepsHalfRange | src/Wave/Reader.php:198-201 | -2^15 comes back as +2^15, 0x8001 as -32767, 0xFFFF as -1, and 0x8000 stays 32768 |
| WaveReader.StereoShift | src/Wave/Reader.php:184-196 | the first left value is null, pair k holds values 2k-1 and 2k, and with an even count the last value is never read |
| WaveReader.StereoWithoutKeys | src/Wave/Reader.php:119-127 | with a fractional sample count every stereo pair is (null, null) |
| WaveReader.LowQualityStereoSamples | src/Wave/Reader.php:161-170 | the 8-bit stereo loop produces the specified pairs |
| WaveReader.HighQualityStereoSamples | src/Wave/Reader.php:184-196 | the 16-bit stereo loop produces the specified filled pairs |
| WaveReader.PairUp | src/Wave/Reader.php:165-167 | stepping i by 2 and pairing keys i and i+1 gives the specified pairs |
| WaveReader.HighQualityMonoSamples | src/Wave/Reader.php:172-182 | every value, in order, through `fill` |
| WaveReader.Reader.constructor | src/Wave/Reader.php:37-42 | all four output fields start null |
| WaveReader.Reader.Read | src/Wave/Reader.php:44-74 | the result and the new fields are those `ReadSpec` and `Decode` specify; a file that cannot be opened changes nothing |
| WaveReader.Reader.Fread | src/Wave/Reader.php:78 | reads up to `length` bytes from the current offset and stops at the end of the file; a length below 1 throws ValueError |
| WaveReader.Reader.ReadChunkDescriptor | src/Wave/Reader.php:76-84 | true exactly when 12 bytes are there with RIFF at 0 and WAVE at 8 |
| WaveReader.Reader.ReadFormatSubChunk | src/Wave/Reader.php:86-102 | stores the fields from the 24 format bytes, then reports the three format checks; too short a file stores nothing |
| WaveReader.Reader.ReadDataHeader | src/Wave/Reader.php:104-111 | true exactly when the data tag is at offset 36 of a file of at least 44 bytes |
| WaveReader.Reader.ReadData | src/Wave/Reader.php:113-135 | throws what `Payload` throws, otherwise stores the decoded samples of the payload |
| WaveReader.Reader.GetSamples | src/Wave/Reader.php:137-154 | dispatches to the decoder the type selects |
| WaveRoundTrip.HeaderRoundTrip | src/Wave/Reader.php:76-111 | the reader accepts every file the writer finishes and recovers channels and sample size, and the rate modulo 2^32 (`pack('V')` keeps its low 32 bits); it throws ValueError exactly when no value was written |
| WaveRoundTrip.DecodeWrittenHeader | src/Wave/Reader.php:44-135 | any file whose header fields read as the writer's is accepted, gives back channels and sample size, and the rate modulo 2^32, and throws ValueError exactly when no payload follows |
| WaveRoundTrip.EmptyFileThrows | src/Wave/Reader.php:113-117 | open then close with nothing written gives a file the reader throws ValueError on |
| WaveRoundTrip.PayloadRoundTrip | src/Wave/Reader.php:113-127 | a 16-bit written file unpacks to one word per written value, each the quantized value modulo 2^16 |
| WaveRoundTrip.MonoRoundTrip | src/Wave/Reader.php:172-182 | 16-bit mono: every quantized value in (-2^15, 2^15] comes back unchanged, in order, and -2^15 comes back as +2^15 |
| WaveRoundTrip.StereoRoundTripShifted | src/Wave/Reader.php:184-196 | 16-bit stereo comes back shifted by one value: null first left channel, even positions as right channels, odd positions as the next pair's left channel |
| WaveRoundTrip.EightBitPayload | src/Wave/Writer.php:135-147 | an 8-bit file still holds each value as a 16-bit word, low byte at 44+2i and high byte at 45+2i |
| WaveRoundTrip.EightBitMonoDoubled | src/Wave/Reader.php:156-159 | 8-bit mono written by the writer comes back as 2n samples: for each value, the low byte of its word, then the high byte |
| Patterns.Span | src/Scorer.php:77 | the length of the longest run of a character class from an offset: it stays inside the text and the next character is not in the class |
| Patterns.SpanRun | src/Scorer.php:77 | every character of the run `Span` measures is in the class |
| Patterns.Find | src/Input.php:44-46 | matches exactly when `Matches` says the pattern's characters are at the offset; a match consumes a non-empty stretch there; the family group is the letter, a number group is the maximal run of digits and dots, and note groups are the letter, the maximal run of index digits and the optional beats |
| Patterns.FindFamilyName | src/Scorer.php:77 | matches exactly a letter followed by a colon; the group is the letter |
| Patterns.FindFrequency | src/Scorer.php:93 | matches exactly when a non-empty run of digits and dots is followed by at least one blank; the group is the whole run, and the match ends after the whole blank |
| Patterns.FrequencyIsGreedy | src/Scorer.php:93 | the group is followed by a non-empty blank, so the run of digits and dots is maximal; the blank is maximal too |
| Patterns.FindSpeed | src/Scorer.php:118 | matches exactly when `speed:`, optional blank, and a number followed by blank are at the offset; the group is that number |
| Patterns.FindNote | src/Scorer.php:138 | matches exactly a letter followed by a digit; the groups are the letter, the maximal run of index digits, and the beats exactly when `+digits` follows them |
| Patterns.Beats | src/Scorer.php:138 | present exactly when a `+` and at least one digit follow; the beats are the maximal run of digits after the plus sign |
| Patterns.FindAfterSymbol | src/Scorer.php:172 | `)` and `.` match exactly when the symbol is there with enough blank after it (none for `)`, one for `.`) |
| TextInput.ValueOf | src/Input.php:50-56 | with more than two entries the value is every group; otherwise it is the last entry |
| TextInput.StartOffset | src/Input.php:46 | a non-negative position is the offset itself; a negative one counts back from the end of the text, and one further back than the start gives 0 |
| TextInput.MatchAt | src/Input.php:44-48 | inside the text, a pattern matches at the cursor exactly when `Matches` holds there; a match consumes text at the start offset with the groups of its pattern |
| TextInput.Input.constructor | src/Input.php:36-40 | the cursor starts at position 0 of the given text |
| TextInput.Input.Lookahead | src/Input.php:44-48 | a match consumes text found at the current offset |
| TextInput.Input.Get | src/Input.php:42-62 | true exactly when the pattern matches; then the position advances by the length of the whole match and the value is `ValueOf` the match; otherwise nothing changes |
| TextInput.Input.GetString | src/Input.php:64-80 | true exactly when the literal is at the current position; the position advances by its length, or stays |
| TextInput.Input.StringAheadIsPrefix | src/Input.php:64-80 | inside the text, the literal is read exactly when the rest of the text starts with it |
| TextInput.Input.GetPosition | src/Input.php:82-85 | returns the position |
| TextInput.Input.SetPosition | src/Input.php:87-90 | stores the position |
| TextInput.Input.Move | src/Input.php:92-95 | adds the offset to the position |
| TextInput.Input.IsHalted | src/Input.php:97-100 | once the position has reached the end of the text, no pattern matches any more |
| TextInput.Input.LookaheadStaysInside | src/Input.php:42-62 | a read from inside the text moves the cursor forward and stays inside the text |
| Scoring.AppendInOrder | src/Scorer.php:153 | an event at the current time keeps the score in order |
| Scoring.LaterInOrder | src/Scorer.php:132 | advancing time keeps the score in order |
| Scoring.TrimStart | src/Scorer.php:52 | drops exactly the leading run of blank characters |
| Scoring.TrimEnd | src/Scorer.php:52 | drops exactly the trailing run of blank characters |
| Scoring.Trim | src/Scorer.php:52 | the result is the stretch of the text left after removing only blank characters from both ends, and it neither starts nor ends with a blank |
| Scoring.TrimIsIdempotent | src/Scorer.php:52 | trimming twice is trimming once |
| Scoring.FloatCast | src/Scorer.php:198 | `(float)` of a number text is never negative |
| Scoring.Decimal | src/Scorer.php:194 | `(string)` of an integer is a digit string of that value, without a leading zero |
| Scoring.DecimalOfDigits | src/Scorer.php:192-194 | printing the value of a canonical digit string gives the string back |
| Scoring.GetNumberIsInteger | src/Scorer.php:190-199 | `getNumber` returns an integer exactly for the texts `(string)` would print |
| Scoring.GetNumberValue | src/Scorer.php:190-199 | whichever branch it takes, `getNumber` gives the text's value as a float |
| Scoring.ShiftWraps | src/Scorer.php:161 | `1 << k` is the low 64 bits of 2^k read as a signed integer |
| Scoring.GetFrequencyOctave | src/Scorer.php:157-162 | index octave·n + j names frequency j raised by `octave` octaves |
| Scoring.OctaveAbove | src/Scorer.php:157-162 | n indices further up is one octave up, while the shift does not overflow |
| Scoring.SpeedRead | src/Scorer.php:116-124 | accepted exactly when `speed:` and a number are at the cursor: the number is consumed and becomes the speed, time and score stay; otherwise nothing changes |
| Scoring.NoteRead | src/Scorer.php:136-155 | never changes time or speed; an accepted note consumes input and appends exactly one event; a division by zero needs speed 0 |
| Scoring.NoteReadCases | src/Scorer.php:136-155 | no note: declined, nothing changes; a note of an undeclared family is consumed and declined; speed 0 throws; otherwise `[time, getFrequency(name, i), beats/speed]` is appended, with beats 1 by default |
| Scoring.SingleNoteRead | src/Scorer.php:126-134 | the outcome of `readNote`; an accepted note adds one event at the old time and advances time by 1/speed; otherwise the state is what `readNote` left |
| Scoring.ChordOpen | src/Scorer.php:166-168 | accepted exactly at `(`, which it consumes; nothing else changes |
| Scoring.ChordNotes | src/Scorer.php:170 | reads notes until one is not accepted: time stays, every event added starts at the chord's onset, and a division by zero needs speed 0 |
| Scoring.ChordEnd | src/Scorer.php:172-177 | declined, with nothing changed, exactly when no `)` is there; otherwise it throws at speed 0 or advances time by 1/speed |
| Scoring.ChordRead | src/Scorer.php:164-178 | the events of a chord all start at its onset; time advances by 1/speed exactly when the chord is accepted, and otherwise stays |
| Scoring.ChordReadCases | src/Scorer.php:164-178 | without `(` nothing changes; after the notes, a division by zero escapes, and the chord is declined exactly when no `)` follows; the notes' events are kept either way |
| Scoring.RestRead | src/Scorer.php:180-188 | no `.` and blank: declined, nothing changes; otherwise consumed, and speed 0 throws or time advances by 1/speed; no event is added |
| Scoring.InstructionRead | src/Scorer.php:108-114 | an accepted instruction consumes input; a division by zero leaves speed 0; families are kept, events only appended, time never goes back |
| Scoring.InstructionOrder | src/Scorer.php:108-114 | a speed change is tried first, then a note, a chord and a rest; where none of the four starts, the instruction is declined with nothing changed |
| Scoring.Instructions | src/Scorer.php:101-106 | never ends declined: instructions are read until one is declined, which counts as success, or one throws |
| Scoring.InstructionsStop | src/Scorer.php:101-106 | where no instruction starts, reading instructions succeeds with nothing changed |
| Scoring.InstructionsThrowAtSpeedZero | src/Scorer.php:101-114 | a division by zero escapes only while the speed is 0 |
| Scoring.FrequencyList | src/Scorer.php:80-89 | the frequencies read are non-negative; there are none exactly when no number is at the cursor, and then the cursor stays |
| Scoring.FrequencyListReads | src/Scorer.php:84-99 | the first frequency is the value of the number at the cursor, and the cursor stops where no number follows |
| Scoring.FamilyRead | src/Scorer.php:69-89 | a family is read exactly when at least one frequency follows its name; then input is consumed and the name is one letter; without a letter and a colon nothing is consumed |
| Scoring.Families | src/Scorer.php:60-67 | only adds families, each named by one letter; time, speed and score stay and the cursor only moves forward |
| Scoring.FirstFamilyDeclared | src/Scorer.php:60-67 | the first family in the text is declared once the families are read |
| Scoring.NoFamilies | src/Scorer.php:60-67 | a text that starts with no family declares nothing and leaves the cursor where it was |
| Scoring.ScoreOf | src/Scorer.php:45-58 | a returned score is in order and its onsets are non-negative |
| Scoring.BlankScore | src/Scorer.php:45-58 | a blank text gives the empty score |
| Scoring.Scorer.GetScore | src/Scorer.php:45-58 | the result is `ScoreOf` the text: the families and then the instructions of the trimmed text, or the division by zero that escaped |
| Scoring.Scorer.ReadNoteFamilies | src/Scorer.php:60-67 | the new state is `Families` of the old one |
| Scoring.Scorer.ReadNoteFamily | src/Scorer.php:69-73 | the answer, the name, the frequencies and the new position are those of `FamilyRead` at the old position |
| Scoring.Scorer.ReadNoteFamilyName | src/Scorer.php:75-78 | true exactly when a letter and a colon are at the cursor; the name is the letter, and the cursor moves past the colon and the blank after it |
| Scoring.Scorer.ReadNoteFamilyFrequencies | src/Scorer.php:80-89 | the frequencies and the new position are those of `FrequencyList`; true exactly when there is at least one |
| Scoring.Scorer.ReadFrequency | src/Scorer.php:91-99 | true exactly when a number and blank are at the cursor; the frequency is its value; the list from the old position is this frequency followed by the list from the new one |
| Scoring.Scorer.ReadInstructions | src/Scorer.php:101-106 | the outcome and the new state are those of `Instructions` |
| Scoring.Scorer.ReadInstruction | src/Scorer.php:108-114 | the outcome and the new state are those of `InstructionRead` |
| Scoring.Scorer.ReadSpeed | src/Scorer.php:116-124 | the outcome and the new state are those of `SpeedRead` |
| Scoring.Scorer.ReadSingleNote | src/Scorer.php:126-134 | the outcome and the new state are those of `SingleNoteRead` |
| Scoring.Scorer.ReadNote | src/Scorer.php:136-155 | the outcome and the new state are those of `NoteRead` |
| Scoring.Scorer.ReadChord | src/Scorer.php:164-178 | the outcome and the new state are those of `ChordRead` |
| Scoring.Scorer.ReadChordOpen | src/Scorer.php:166-168 | the outcome and the new state are those of `ChordOpen` |
| Scoring.Scorer.ReadChordNotes | src/Scorer.php:170 | the loop's outcome and new state are those of `ChordNotes` |
| Scoring.Scorer.ReadChordEnd | src/Scorer.php:172-177 | the outcome and the new state are those of `ChordEnd` |
| Scoring.Scorer.ReadRest | src/Scorer.php:180-188 | the outcome and the new state are those of `RestRead` |
| Synthesis.Truncate | src/Synthesizer.php:63 | `(int)` of a float truncates toward zero |
| Synthesis.Zeros | src/Synthesizer.php:71 | `array_fill(0, n, 0)` is n zeros |
| Synthesis.Sound | src/Synthesizer.php:104-113 | a marimba sound has 44101 samples |
| Synthesis.SoundIsLeadingSuccesses | src/Synthesizer.php:104-113 | the sound is the instrument's answers at i/44100 for every i before the first refusal, and the instrument refuses right after it |
| Synthesis.DurationIgnored | src/Instruments/MarimbaInstrument.php:30-36 | the marimba answers the same whatever duration it is asked for |
| Synthesis.Overlay | src/Synthesizer.php:115-123 | the mix is as long as the longer of song and sound |
| Synthesis.OverlayMixes | src/Synthesizer.php:115-123 | where the sound lasts, song (0 when missing) plus a quarter of the sound; after it, the song alone |
| Synthesis.OverlayKeepsTail | src/Synthesizer.php:115-123 | the song beyond the sound is unchanged |
| Synthesis.Flush | src/Synthesizer.php:61-76 | a gap of n samples writes exactly n samples and keeps the buffer's start time |
| Synthesis.FlushWritesBufferOnce | src/Synthesizer.php:65-73 | a flush writes buffered samples once and in order, then zeros for the part the buffer cannot cover |
| Synthesis.Gap | src/Synthesizer.php:61-76 | a note after the buffer start moves the start to its onset; an earlier note flushes nothing |
| Synthesis.Step | src/Synthesizer.php:58-80 | one note changes what is written only through its gap |
| Synthesis.MixdownKeepsWritten | src/Synthesizer.php:58-80 | what has been written is never taken back |
| Synthesis.SongStartsSilent | src/Synthesizer.php:48-51 | a song starts with exactly 22050 zeros |
| Synthesis.SingleNote | src/Synthesizer.php:39-84 | a single note after a pause gives silence up to its onset, then its sound at a quarter of its amplitude |
| Synthesis.Synthesizer.constructor | src/Synthesizer.php:33-37 | the cache starts without keys (PHP's null cache answers `isset` like an empty array), and the instrument is the given one |
| Synthesis.Synthesizer.Synthesize | src/Synthesizer.php:39-84 | the writer ends closed with 1 channel, 16-bit samples and rate 44100, holding exactly the WAVE file of the timeline; the rate becomes 44100 and the cache gains exactly one key (frequency, duration) per note |
| Synthesis.Synthesizer.OpenWriter | src/Synthesizer.php:41-51 | the writer is opened as 16-bit mono at 44100 Hz with half a second of silence written for a song |
| Synthesis.Synthesizer.FlushGap | src/Synthesizer.php:61-76 | writes the note's gap and leaves the buffer and its start time as `Gap` says |
| Synthesis.Synthesizer.GetSilence | src/Synthesizer.php:86-90 | `(int)(rate * duration)` zeros |
| Synthesis.Synthesizer.GetSample | src/Synthesizer.php:92-102 | returns the sound of the frequency and stores it under its key; a cached key leaves the cache unchanged |
| Synthesis.Synthesizer.SynthesizeSample | src/Synthesizer.php:104-113 | the instrument's answers at i/rate up to its first refusal, which is the note's sound |
| Synthesis.Synthesizer.Add | src/Synthesizer.php:115-123 | the loop computes the overlay of the sound onto the song |

## Left out

- TextInput.Input: the text is a sequence of characters, whereas PHP's strings are bytes and `strlen`, `substr_compare` and the position count bytes. For text with non-ASCII characters the lengths and positions therefore differ (for "é", two bytes, `isHalted` at position 1 is false in PHP and true in the model). The score is unaffected, since every pattern the parser uses matches only ASCII characters.
- File handles are not modelled: `fopen`, `fread`, `fwrite`, `fseek`, `fclose` and `filesize`. The writer's file is the byte sequence `file`. The reader gets the file's bytes, or `None` for a path that cannot be opened.
- Short writes are not modelled. The boolean results of `fwrite` are ignored by every caller.
- A `filesize` that is not an integer also makes `read` return false. The model folds it into the file that cannot be opened.
- WaveWriter.Writer.Write: requires an opened writer. In PHP, `write` before `open` throws `ArithmeticError` from `1 << -2`, and `write` after `close` throws `TypeError` on the closed handle; the model does not reproduce these errors.
- WaveWriter.Writer.Close: requires an opened writer. In PHP, `close` before `open` or a second `close` fails on the missing or closed handle; the model does not reproduce this.
- WaveWriter.Writer.Open: takes integer parameters. PHP's checks are strict (`=== 1`, `=== 2`, `is_int`), so a float rate or a string channel count is rejected there; such values cannot be passed to the model.
- WaveWriter.Writer.Open: takes no path. The file that `fopen` creates is the empty byte sequence `Begin` starts with.
- Synthesis.Synthesizer.Synthesize: takes no output path, and ignores the result of `open`, as the source does. With its fixed parameters, `open` cannot fail.
- IEEE floating point is modelled with exact reals. This covers the float product in `round`, the `(int)` casts of float products, the float time sums and the `i / rate` sample times.
- The marimba's waveform (sines under an exponential decay) is a parameter of the model, `Marimba.wave`. Only its stop rule is kept: it answers for t ≤ 1 and refuses after, whatever duration it is asked for. `MysteryInstrument` is never used and is not part of this model.
- The PCRE engine is replaced by hand-written matchers. They match only the seven patterns the parser uses, anchored at the cursor.
- With named groups, PHP's `$matches` holds each group twice, under its name and under its number. The model keeps each group once. This never changes whether the value is the group list or a single entry.
- Scoring.IntCast: `(int)` of a very long digit string saturates at PHP_INT_MAX. The model takes the unbounded value.
- Scoring.GetFrequency: `(int)floor($i / $n)` is taken as integer division. This is exact for the non-negative indices the parser produces.
- Cache keys `"frequency:spread"` are modelled as pairs of reals. Two different floats that print the same would share a key in PHP but not in the model.
- Synthesis.Synthesizer.GetSilence: requires a non-negative duration. The source only calls it with 0.5, and PHP 8's `array_fill` throws for a negative count.
- The loop body of `synthesize` is split into `FlushGap` (the writes before a later note) and the mixing steps in `Synthesize`. The opening of the writer is split into `OpenWriter`.
- Autoloading is not part of this model.
