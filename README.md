# libcall marshaling core, modelled in Dafny

`libcall` calls an exported C function from the command line, given a list of
type-tagged arguments (`libcall -lm sqrt double 16 -r double`). This project
models its marshaling layer: everything between the command-line tokens and
the native call, and between the raw result and what the user is shown.

- `type_map.dfy` (`TypeMap`): the type-name table, where many spellings map
  to one type symbol, and the integer and float classifications.
- `values.dfy` (`Values`): type descriptors (`:int`, `[:out, :int]`,
  `[:array, B]`, `[:out_array, B, n]`), the Ruby values paired with them and
  the errors the layer raises.
- `numerals.dfy` (`Numerals`): decimal `Integer(token)`, `Integer#to_s` and
  `format('%x')`, with their round trips.
- `parser.dfy` (`Parser`): the parser's own type table (proved to agree with
  `TypeMap::MAP`), `parse_type`, `parse_return_type`, `coerce_value`,
  `strip_quotes` and `fiddle_type`.
- `native.dfy` (`Native`): Fiddle's ABI tags, the platform's sizes, native
  argument values, output references, scratch buffers, and the collaborators
  outside the model as abstract functions (`Foreign`).
- `callback_handler.dfy` (`CallbackHandler`): callback validation, the closure
  signature and argument cooking.
- `argument_processor.dfy` (`ArgumentProcessor`): the loop that turns pairs
  into aligned tags and values, with buffers, output references and closures.
- `output_reader.dfy` (`OutputReader`): reading output references back.
- `caller.dfy` (`Caller`): the argument loop of `Caller#call`, result
  formatting, output reading and result shaping.
- `pack.dfy` (`Pack`): `Array#pack` / `String#unpack` for the integer
  directives, with the pack-then-unpack round trip.
- `fiddley.dfy` (`Fiddley`): `Utils` and the in-place byte buffer
  `MemoryPointer` (a class over an `array<byte>`).
- `cli.dfy` (`Cli`): the options, `handle_option!`, the `scan_argv!` token
  scanner (a `CLI` class whose methods update `options`, each proved against a
  specification function) and `build_info_hash`.

Code that changes state in the source is imperative here:
- `ArgumentProcessor.Process`, `Caller.CollectArguments` and `Caller.Call` are
  loops over the pairs;
- `MemoryPointer` writes its array in place;
- `CLI.ScanArgv` and `CLI.HandleOption` update the `options` field.

Each of these is proved equal to a specification function, and the lemmas
are stated about that function.

Two details of the source are worth knowing.
- The parser's type table (`lib/libcall/parser.rb:6-33`) is a strict subset
  of `TypeMap::MAP`. It has no `short` or stdint spellings (`int32`,
  `float64`), so the command line rejects names the type map knows. Where
  both tables have a name, they agree (`Parser.ParserTableAgrees`).
- `Caller#call` does not use `ArgumentProcessor`. It handles
  `[:out_array, B, n]` without checking or writing an initializer, and it
  passes `:callback` values through without building a closure. The model
  keeps the two apart, and `Caller.CallerAgreesWithProcessor` states where
  they coincide.

## Model

| member | source | states |
|---|---|---|
| TypeMap.Lookup | lib/libcall/type_map.rb:65-67 | a name is found exactly when it is a key of `MAP`, and what is found is an integer or float symbol, `:string`, `:voidp` or `:void` |
| TypeMap.Name | lib/libcall/output_reader.rb:31 | `Symbol#to_s`: a symbol the core names spells one of the named type names, and a symbol it does not name never does |
| TypeMap.NameInjective | lib/libcall/output_reader.rb:31 | distinct symbols have distinct names, so an entry's type text identifies its symbol |
| TypeMap.IsIntegerType | lib/libcall/type_map.rb:70-72 | `integer_type?`: no integer type is a float type or a symbol outside the core |
| TypeMap.IsFloatType | lib/libcall/type_map.rb:75-77 | `float_type?`: no float type is an integer type or a symbol outside the core |
| TypeMap.MapValuesAreTableKinds | lib/libcall/type_map.rb:7-50 | every value of `MAP` is an integer symbol, a float symbol, `:string`, `:voidp` or `:void` |
| TypeMap.LookupAliases | lib/libcall/type_map.rb:9-46 | `i32`/`int`/`int32` give `:int`, `f32`/`float`/`float32` give `:float`, `f64`/`double`/`float64` give `:double` |
| TypeMap.LookupWidths | lib/libcall/type_map.rb:15-18 | `i64`/`int64` give `:long_long`, `u64`/`uint64` give `:ulong_long`, `isize`/`usize` give `:long`/`:ulong` |
| TypeMap.LookupPointers | lib/libcall/type_map.rb:22-24 | `cstr`/`str`/`string` give `:string`, `ptr`/`pointer` give `:voidp`, `void` gives `:void` |
| TypeMap.LookupUnknown | lib/libcall/type_map.rb:65-67 | `unknown` and the empty name give nil |
| TypeMap.LookupCaseSensitive | lib/libcall/type_map.rb:65-67 | lookup is case-sensitive: `INT` and `F64` give nil |
| TypeMap.Classification | lib/libcall/type_map.rb:53-77 | ten integer symbols and two float symbols, in disjoint lists; `:void`, `:voidp`, `:string` are in neither |
| Parser.ParserTableAgrees | lib/libcall/parser.rb:6-33 | every name of the parser's table is in `TypeMap::MAP` with the same symbol |
| Parser.ParserTableLacksShort | lib/libcall/parser.rb:6-33 | `short` is in `TypeMap::MAP` but not in the parser's table |
| Parser.ParserClassesAgree | lib/libcall/parser.rb:35-36 | the parser's integer and float lists are the type map's |
| Parser.ParseType | lib/libcall/parser.rb:39-53 | an `out:` word gives an output pointer to the type after the prefix; other words give the plain type; each agrees with `TypeMap.lookup`; it raises exactly when the (inner) name is not in the table |
| Parser.ParseTypeOut | lib/libcall/parser.rb:41-47 | `parse_type("out:" + X)` is `[:out, TYPE_MAP[X]]`, or raises "unknown out type" when `X` is unknown |
| Parser.ParseReturnType | lib/libcall/parser.rb:55-62 | nil, `""` and `"void"` give `:void`; it raises exactly for other names missing from the table; any other known name gives what `TypeMap.lookup` gives; every result is a table kind |
| Parser.StripQuotes | lib/libcall/parser.rb:84-90 | a token that starts and ends with the same quote loses both, and a lone quote becomes empty; any other token is unchanged |
| Parser.StripQuotesInverse | lib/libcall/parser.rb:84-90 | quoting any text with either quote character and stripping gives the text back |
| Parser.CoerceValue | lib/libcall/parser.rb:64-82 | float types keep the token; integer types parse it or raise; `:voidp` gives 0 for the null tokens and otherwise parses the token as an integer or raises; strings lose their quotes; `:void` raises; a coerced value is never nil and only plain table kinds coerce |
| Parser.CoerceIntegerRoundTrip | lib/libcall/parser.rb:68-74 | for every integer type and `:voidp`, coercing the printed form of an integer gives that integer |
| Parser.FiddleType | lib/libcall/parser.rb:92-111 | exactly output pointers, `:voidp` and `:string` get the pointer tag; a plain symbol has a tag exactly when it is a table kind; other array forms raise |
| Parser.FiddleTypeSignedness | lib/libcall/parser.rb:102-104 | int/uint, long/ulong and long_long/ulong_long share a tag pairwise, while char/uchar and short/ushort do not |
| Parser.ParsedTypesHaveTags | lib/libcall/parser.rb:39-53 | every descriptor `parse_type` returns has an ABI tag |
| Numerals.DecimalRoundTrip | lib/libcall/output_reader.rb:38 | the decimal digits of a count read back as that count |
| Numerals.ParseIntegerRoundTrip | lib/libcall/parser.rb:69 | decimal integer parsing inverts integer printing for every integer |
| Numerals.HexDigitsMeaning | lib/libcall/caller.rb:88 | `%x` digits are lower-case hex; they denote the number, or for a negative number its two's complement, with a leading `f` |
| Values.ToArray | lib/libcall/argument_processor.rb:69 | `Array(value)`: nil is empty, a list is its items, a callback hash is its `[key, value]` pairs (four, or three without `:kind`), any other value is a one-element list; the result is empty exactly for nil and the empty list |
| ArgumentProcessor.ProcessPair | lib/libcall/argument_processor.rb:46-102 | the steps run in source order and each may raise: `[:out, T]` allocates one element, then adds the reference `{index: i, kind: :out, type: T}`; `[:array, B]` allocates `Array(value)`, writes it, and keeps exactly those values; `[:out_array, B, n]` allocates `n` elements, raises on a non-nil initializer of the wrong length, writes a non-nil initializer, then records its reference; a callback adds its closure and passes it; other array forms raise; the tag is asked for last. For each kind it succeeds exactly when every step does, and otherwise raises the first failing step's error; the tag is `to_fiddle_type` of the descriptor |
| ArgumentProcessor.Process | lib/libcall/argument_processor.rb:19-42 | it succeeds exactly when every pair does, else raises the first pair's error; on success, tags and values have one entry per pair, entry `i` from pair `i`, and the references, closures and buffers are those of the pairs in order |
| ArgumentProcessor.OutRefsIncreasing | lib/libcall/argument_processor.rb:25-34 | output-reference indices are strictly increasing, and each names an output pair |
| ArgumentProcessor.CountsMatch | lib/libcall/argument_processor.rb:97-102 | one closure per callback pair and one reference per output pair |
| ArgumentProcessor.HashInitializerIsSplit | lib/libcall/argument_processor.rb:82-87 | a callback hash given as the initializer of `[:out_array, :int, 1]` is split into its four pairs, so the length check raises `InitializerLength(4, 1)` |
| CallbackHandler.ArgTags | lib/libcall/callback_handler.rb:21 | one tag per declared argument, in order, each `to_fiddle_type` of its symbol; the first argument without a tag raises |
| CallbackHandler.IsCallbackSpec | lib/libcall/callback_handler.rb:32-36 | `validate_spec!` rejects every value that is not a hash, and accepts a hash exactly when its `:kind` is `:callback` |
| CallbackHandler.Create | lib/libcall/callback_handler.rb:10-36 | a spec that is not a hash of kind `:callback` raises; a closure exists exactly when the spec is valid, the return and argument symbols have tags and the block compiles, and it carries those tags |
| CallbackHandler.CookArguments | lib/libcall/callback_handler.rb:45-50 | one entry per native argument; exactly the positions declared `:voidp` are wrapped as pointer handles |
| CallbackHandler.UncookCook | lib/libcall/callback_handler.rb:45-50 | cooking only wraps: the payloads are the native arguments, in order |
| OutputReader.Read | lib/libcall/output_reader.rb:10-41 | one entry per reference, in order and with the same index; an `:out` entry is typed by its symbol's name, an `:out_array` entry by `"base[count]"`; it raises exactly when some reference has another kind, with the first such kind |
| OutputReader.ReadRef | lib/libcall/output_reader.rb:14-41 | one reference: an `:out` entry is typed by its symbol's name and holds the pointed-to value, an `:out_array` entry is typed `"base[count]"` and holds the elements read, both with the reference's index; any other kind raises "unknown output kind" |
| OutputReader.Empty | lib/libcall/output_reader.rb:23-25 | `empty?` holds exactly when reading yields no entries, whatever the memory holds |
| OutputReader.EmptyMeansNoEntries | lib/libcall/output_reader.rb:23-25 | `empty?` holds exactly when reading yields no entries |
| OutputReader.ArrayEntriesHaveCount | lib/libcall/output_reader.rb:34-41 | when the memory reader returns as many elements as asked, each `:out_array` entry holds exactly `count` elements |
| OutputReader.ArrayTypeNameReadsBack | lib/libcall/output_reader.rb:38 | an array entry's type text is the base name, `[`, digits denoting the count, and `]` |
| Caller.CallerSlot | lib/libcall/caller.rb:22-50 | the tag is computed first for every pair and a missing tag raises; then `[:out, T]` allocates one element and records its reference; `[:array, B]` allocates and writes `Array(value)`; `[:out_array, B, n]` allocates `n` elements and records count, base and index with nothing written; other array forms raise; bare symbols pass their value. For each kind it succeeds exactly when the tag, allocation and writing succeed, and otherwise raises the first failing step's error |
| Caller.OutArrayValueIgnored | lib/libcall/caller.rb:38-43 | the value supplied with an `[:out_array, B, n]` pair does not matter |
| Caller.CallerAgreesWithProcessor | lib/libcall/caller.rb:22-50 | wherever the argument processor accepts a non-callback pair, the caller's loop gives the same tag, value and reference, and the same buffer unless an initializer was given |
| Caller.CollectArguments | lib/libcall/caller.rb:18-50 | the loop succeeds exactly when every pair does, else raises the first error; on success one tag and one value per pair, in order, and the output references in order |
| Caller.Call | lib/libcall/caller.rb:17-68 | the result is the whole-call specification, and the foreign call is reached exactly when every pair and the return type are accepted |
| Caller.FormatResult | lib/libcall/caller.rb:72-92 | void gives nil (and only void does); a string result at address 0 is `"(null)"`, otherwise the C string or the hex address; a pointer result is `'0x%x'` of the address; other types give the raw word |
| Caller.PointerResultReadsBack | lib/libcall/caller.rb:87-88 | a pointer result is `0x` followed by hex digits denoting the address (two's complement after `..` when negative) |
| Caller.ReadOutputValues | lib/libcall/caller.rb:94-109 | one entry per reference |
| Caller.ReadOutputValuesIsRead | lib/libcall/caller.rb:94-109 | the caller's output reading equals `OutputReader#read`: same order, indices, types, values and errors |
| Caller.CallSpec | lib/libcall/caller.rb:17-68 | the first pair the loop rejects raises its error; a return type without a tag raises; a successful call had every pair and the return type accepted, and has one output entry per output reference |
| Caller.RefsOfKnownKinds | lib/libcall/caller.rb:28-44 | the references the loop records are all `:out` or `:out_array` |
| Caller.CallRaisesOnlyOnLoad | lib/libcall/caller.rb:52-68 | once the foreign function is called, the unknown-kind error of `read_output_values` (line 106) never fires, so with total memory readers only a load failure can raise |
| Caller.CallShape | lib/libcall/caller.rb:61-65 | the bare result comes back exactly when no pair is an output, otherwise one output entry per output reference |
| Pack.DirectiveOf | lib/libcall/fiddley.rb:53 | a template is one letter with an optional `!`; lower-case letters are signed |
| Pack.PackLength | lib/libcall/fiddley.rb:52-54 | packing yields `width` bytes per element |
| Pack.UnpackLength | lib/libcall/fiddley.rb:57-59 | unpacking yields one element per whole group of `width` bytes; trailing bytes are dropped |
| Pack.DecodeEncode | lib/libcall/fiddley.rb:52-59 | a representable element unpacks to what was packed, in either byte order |
| Pack.UnpackPack | lib/libcall/fiddley.rb:52-59 | unpacking packed representable integers followed by any bytes gives the integers back, then what the bytes hold |
| Fiddley.Sizeof | lib/libcall/fiddley.rb:19-27 | `size_t` is `SIZEOF_SIZE_T`, `:pointer`/`:voidp` are `SIZEOF_VOIDP`, anything else is delegated and a failed delegation raises |
| Fiddley.ToFiddleType | lib/libcall/fiddley.rb:30-37 | the same pattern for ABI tags |
| Fiddley.ArrayPackTemplate | lib/libcall/fiddley.rb:40-49 | `size_t` uses `SIZET_PACK`; a delegated template wins; the pointer spellings fall back to `J`; anything else raises |
| Fiddley.ArrayDirective | lib/libcall/fiddley.rb:53 | the directive of the base type's template, or the template's error |
| Fiddley.Array2Str | lib/libcall/fiddley.rb:52-54 | template errors propagate; otherwise packing succeeds exactly for integer elements |
| Fiddley.Str2Array | lib/libcall/fiddley.rb:57-59 | template errors propagate; the elements read are integers |
| Fiddley.SizetPackDirective | lib/libcall/fiddley.rb:15 | `size_t` arrays pack unsigned, as wide as a long where a pointer is, else eight bytes |
| Fiddley.PointerSpellingsAgree | lib/libcall/fiddley.rb:19-49 | `:pointer` and `:voidp` have the same size and tag, and without a delegated template they pack with exactly the width `sizeof` reports |
| Fiddley.Array2StrRoundTrip | lib/libcall/fiddley.rb:52-59 | for representable integers, `array2str` gives `width` bytes per element and `str2array` of them gives the array back |
| Fiddley.Spliced | lib/libcall/fiddley.rb:92 | copying `s` at an offset overwrites exactly that range and keeps the length |
| Fiddley.MemoryPointer.constructor | lib/libcall/fiddley.rb:66-70 | the buffer holds `sizeof(type) * count` bytes of fresh memory; `count` defaults to 1 |
| Fiddley.MemoryPointer.New | lib/libcall/fiddley.rb:66-70 | construction raises exactly when `sizeof` does, otherwise gives a fresh buffer of `sizeof(type) * count` bytes |
| Fiddley.MemoryPointer.PutBytes | lib/libcall/fiddley.rb:91-93 | bytes `[off, off+len)` become `s`; every other byte is unchanged |
| Fiddley.MemoryPointer.WriteBytes | lib/libcall/fiddley.rb:95-97 | `put_bytes` at offset 0 |
| Fiddley.MemoryPointer.GetBytes | lib/libcall/fiddley.rb:99-101 | exactly the bytes `[off, off+len)` |
| Fiddley.MemoryPointer.ReadBytes | lib/libcall/fiddley.rb:103-105 | the first `len` bytes |
| Fiddley.MemoryPointer.WriteArray | lib/libcall/fiddley.rb:80-84 | the packed elements of `Array(values)` are written from offset 0 and the same buffer is returned; where packing raises, nothing is written |
| Fiddley.MemoryPointer.ReadArray | lib/libcall/fiddley.rb:86-89 | `sizeof(type) * count` bytes from offset 0, unpacked; raises where `sizeof` does |
| Fiddley.WriteThenReadArray | lib/libcall/fiddley.rb:80-89 | `read_array(T, n)` after `write_array(T, vs)` with `n == len(vs)` gives `vs` back for representable integers, whatever the buffer held |
| Cli.AttachedValue | lib/libcall/cli.rb:205-207 | a glued value is captured exactly when the token is `-X` followed by a non-empty single line, and the token is `-X` plus that value |
| Cli.HandleOptionSpec | lib/libcall/cli.rb:183-224 | a token that is no option, and every non-consuming outcome, leaves the options as they were; at most two tokens are consumed, all inside the input; `lib_paths` only grows, by the value after `-L` |
| Cli.ReturnTypeFlag | lib/libcall/cli.rb:213-220 | the flag consumes its tokens exactly when the type name parses, and sets the return type to it; otherwise it raises "unknown return type" |
| Cli.FlagArity | lib/libcall/cli.rb:183-224 | `-l X`, `-L X`, `-r X` take two tokens, or raise at the end of input; switches, `-lX` and `-rX` take one; help and version end the scan; any other token consumes nothing and changes nothing |
| Cli.FlagEffects | lib/libcall/cli.rb:185-220 | `--dry-run`, `--json` and `--verbose` turn their option on; `-l X` sets the library name to `X`, `-L X` appends `X` to the search paths, `-r X` and a glued `-rX` set the return type to the parsed `X`, for any argument vector |
| Cli.LastFlagWins | lib/libcall/cli.rb:200-220 | whatever an earlier token did to the options, a later `-l X`, `--lib X` or `-lX` sets the library name and a later `-r X`, `--ret X` or `-rX` with a known type sets the return type, in any argument vector |
| Cli.NoDashNoFlag | lib/libcall/cli.rb:183-224 | a token not starting with `-` is never an option |
| Cli.SkipDashes | lib/libcall/cli.rb:165-168 | the first position from `j` on that is not `--`, with only `--` skipped |
| Cli.Step | lib/libcall/cli.rb:120-175 | each turn advances, extends the pairs by at most one, keeps them well formed, never grows `lib_paths` except by appending, keeps a library path or function name once found, and after `--` leaves options alone and cannot stop except with an error |
| Cli.Positional | lib/libcall/cli.rb:139-175 | a positional token never changes options, advances, adds at most one pair, and never replaces a library path or function name already found |
| Cli.TypedArgument | lib/libcall/cli.rb:152-175 | the TYPE token is parsed with `parse_type` and an unknown type raises; an output type is paired with nil and takes no value; any other type takes the next token that is not `--`, raises "missing value" when there is none, and otherwise is paired with `coerce_value` of that token or raises its error; skipping a `--` there switches to positional-only mode |
| Cli.ScanFrom | lib/libcall/cli.rb:113-179 | a scan that completes keeps the library path and function name already found |
| Cli.PositionalRoles | lib/libcall/cli.rb:139-150 | a non-flag token is the library path unless a path or `-l` is known, then the function name |
| Cli.PositionalOnlyFreezesOptions | lib/libcall/cli.rb:124-137 | after `--`, no token changes the options and the scan cannot end in help or version |
| Cli.LibPathsAppendOnly | lib/libcall/cli.rb:208-212 | `-L` values are only ever appended, in order |
| Cli.ScanPairs | lib/libcall/cli.rb:152-175 | the pairs extend those collected so far, in token order, and are well formed |
| Cli.ScanPairsBounded | lib/libcall/cli.rb:113-179 | a scan collects at most one pair per token |
| Cli.ExampleGluedFlags | lib/libcall/cli.rb:21 | `-lm sqrt double 16 -rdouble` gives function `sqrt`, one double pair, library name `m` and return type double |
| Cli.ExampleDashesBeforeValue | lib/libcall/cli.rb:164-175 | a `--` between a type and its value is skipped, so a flag-like value such as `-r` is coerced as a value |
| Cli.BuildInfo | lib/libcall/cli.rb:237-250 | the arguments are numbered 0 to n-1 in order, each with its type text and value, plus the library, function and return type name |
| Cli.DescText | lib/libcall/cli.rb:244 | `type_sym.to_s`: a bare symbol gives its name; a compound descriptor gives its inspected array, bracketed and starting with `[:` |
| Cli.CLI.constructor | lib/libcall/cli.rb:27-38 | the options start as the defaults: no switches, return type `:void`, no library, no paths |
| Cli.CLI.HandleOption | lib/libcall/cli.rb:183-224 | the outcome and the new options are those of `Cli.HandleOptionSpec` on the old options |
| Cli.CLI.SetReturnType | lib/libcall/cli.rb:216-219 | the outcome and the new options are those of `Cli.ReturnTypeFlag` |
| Cli.CLI.ScanArgv | lib/libcall/cli.rb:113-179 | the loop ends as the scanner specification does from the start state, and leaves the options it says |
| Cli.CLI.ScanPositional | lib/libcall/cli.rb:139-175 | the positional part of one turn, skipping `--` between a type and its value, is `Cli.Positional` |

## Left out

- `Fiddle.dlopen`, symbol lookup and the native call are left out. So are the C-string read of a string result and `TypeMap`'s memory helpers (`to_fiddle_type`, `sizeof`, `pack_template`, `allocate_output_pointer`, `allocate_array`, `write_array`, `read_array`, `read_output_pointer`). Their code is not part of this model; each is an abstract function of `Native.Foreign`. Allocation and writing are `Foreign.allocationFailure` and `Foreign.writeFailure`, which give the error they raise or nothing; what they set up is a `Native.Buffer` identified by the position of its pair.
- Caller.CallRaisesOnlyOnLoad: relies on the memory readers `read_output_pointer` and `read_array` being total (`Foreign.readOutputPointer`, `Foreign.readArray`), because their code is not part of this model; an error they raise is not modelled.
- Values.ToArray: lists a callback hash's pairs in the order `kind`, `ret`, `args`, `block`, whereas Ruby keeps the order in which the hash was built.
- CallbackHandler.Create: a `HashV` always carries `ret` and `args`, so the `NoMethodError` Ruby raises for a hash without them is not modelled.
- `CallbackHandler#build_proc` evaluates Ruby code with `instance_eval` and is not modelled. Whether a block compiles is the abstract `blockCompiles`, and the `BlockCaller` trampoline is left out.
- Float values are not modelled. A `FloatV` keeps its token text.
- Parser.CoerceValue: accepts any token for a float type, whereas Ruby's `Float(token)` raises on malformed input.
- Caller.FormatResult: returns the raw word for `:float`/`:double` results instead of converting it with `to_f`.
- Pack.PackAll: reports a float element as `PackTypeError`, where Ruby would truncate it to an integer.
- Fiddley.Array2Str: handles only the integer pack directives. A float template such as `f` or `d` is reported as `UnknownDirective`.
- Numerals.ParseInteger: accepts only plain decimal with an optional sign. Ruby's `Integer()` also accepts underscores, surrounding whitespace, `0x`/`0b`/`0o` prefixes and octal leading zeros.
- Fiddley.MemoryPointer.PutBytes: takes in-bounds offsets as a precondition, because writing past the buffer is undefined behaviour in the native layer. `GetBytes`, `WriteArray` and `ReadArray` take the same precondition.
- Fiddley.MemoryPointer.constructor: leaves the initial bytes unspecified, since `malloc` does not clear memory.
- `MemoryPointer#to_ptr`, `#address` and `#read_pointer`, `Fiddley::DSL` and `Fiddley::Function` are not part of this model.
- Help, version, JSON and text output (`run`, `dry_run_info`, `print_info`, `output_result`, `puts`/`exit`) are not modelled. `-h`/`-v` end the scan with `ShowHelp`/`ShowVersion`.
- Cli.DescText: renders compound descriptors as `[:out, :int]`, following Ruby's `Array#inspect`. It renders an unnamed symbol by its name only.
- `lib/libcall/library_finder.rb` is left out because it probes the filesystem. `lib/libcall/platform.rb` is left out because it reads the interpreter's platform.
- Argument-signature parsing (`parse_arg`, `parse_signature`, `int[]`, callback signatures) is not part of this model.
