# Shader front end: lexer header and shader-parser header

This project models the inline behaviour of the two headers at the base of
libobs's shader front end:

- `libobs/util/lexer.h`: the borrowed string span (`strref`), the character
  classes and newline widths, the diagnostic collector (`error_data`) and the
  lexer cursor (`lexer`).
- `libobs/graphics/shader-parser.h`: the declaration records (`shader_var`,
  `shader_sampler`, `shader_struct`, `shader_func`) with their init routines,
  the parser state (`shader_parser`) and its first-match lookups.

Modules: `Wrappers` (an `Option` standing in for nullable pointers),
`Lexer` (lexer.dfy) and `ShaderParser` (shader_parser.dfy).

Modelling choices:

- A C pointer that may be NULL is an `Option`. A `strref` is a class with an
  optional start index into a borrowed buffer and a length. The buffer itself
  is a `seq<char>` given to the operations that read through the pointer.
  `array` is a reserved word in Dafny, so the C field `array` is named `start`.
- A C string is read through `CharAt`. Reading past the last visible
  character yields the NUL terminator.
- Structs that the C code updates through pointers are classes. Their
  darrays are `seq` fields. The init routines are methods on objects that
  already exist (`new ShaderVar` then `Init()`), as in C, where init is
  called on storage that already exists.
- The lexer owns its text as an `array?<char>`. `Start` copies the string
  into a fresh array that includes the terminator. `StartMove` adopts the
  caller's array itself. The cursor is an optional index into that array.
- The lookups return the element object where the C returns a pointer into
  the darray. The model's lists hold references to separate heap objects, not
  inline records, so a returned object stays valid when a list grows.
- Diagnostic rows and columns are `uint32_t` (`u32`). Levels are plain
  `int`, with `LEVEL_ERROR = 0` and `LEVEL_WARNING = 1`.

## Model

| member | source | states |
|---|---|---|
| `Lexer.StrRef.Clear` | libobs/util/lexer.h:43-47 | the span becomes NULL with length 0, so it is empty whatever the buffer |
| `Lexer.StrRef.Set` | libobs/util/lexer.h:49-53 | the span takes exactly the given origin and length |
| `Lexer.StrRef.Copy` | libobs/util/lexer.h:55-59 | the span takes the source span's origin and length as they were before the call, even when the source is the span itself |
| `Lexer.StrRef.Add` | libobs/util/lexer.h:61-67 | a NULL span becomes a copy of `t`; otherwise the origin never moves and the length grows by exactly `t`'s length; when `t` starts where the span ended in the same buffer, the grown span's text is the span's old text followed by `t`'s |
| `Lexer.SliceAdjacent` | libobs/util/lexer.h:61-67 | a span grown by the span that starts where it ends covers the first span's characters followed by the second's |
| `Lexer.StrRef.IsEmpty` | libobs/util/lexer.h:69-77 | true iff the origin is NULL, the length is 0 or the first character is NUL; for a span inside its buffer, iff its text is empty or starts with NUL |
| `Lexer.IsWhitespace` | libobs/util/lexer.h:101-104 | true iff the character is a space or tab or a newline character |
| `Lexer.IsNewline` | libobs/util/lexer.h:106-109 | a newline character is never a space or a tab, so the two classes are disjoint |
| `Lexer.IsSpaceOrTab` | libobs/util/lexer.h:111-114 | a space or tab is never `\r`, `\n` or the string terminator |
| `Lexer.IsNewlinePair` | libobs/util/lexer.h:116-120 | true iff both characters are newline characters and they differ |
| `Lexer.NewlineSize` | libobs/util/lexer.h:122-130 | result in 0..2; positive iff the string starts with a newline character; 2 iff its first two characters are a newline pair; 1 iff a newline character is not followed by its partner |
| `Lexer.CountLevel` | libobs/util/lexer.h:225-235 | the number of items at a level never exceeds the number of items |
| `Lexer.CountLevelAppend` | libobs/util/lexer.h:222-223 | appending one item adds one to the count of its own level and nothing to any other |
| `Lexer.CountLevelPositive` | libobs/util/lexer.h:237-245 | the count of a level is positive iff some item has that level |
| `Lexer.CountLevelDisjoint` | libobs/util/lexer.h:172-177 | the counts of two distinct levels (error and warning) add up to at most the number of items |
| `Lexer.ErrorData.Init` | libobs/util/lexer.h:203-206 | the collector holds no items |
| `Lexer.ErrorData.Add` | libobs/util/lexer.h:222-223 | exactly one item is appended, holding the given message, file, position and level; earlier items stay as they were |
| `Lexer.ErrorData.Item` | libobs/util/lexer.h:214-218 | returns the item stored at the given index, which must exist |
| `Lexer.ErrorData.TypeCount` | libobs/util/lexer.h:225-235 | returns the number of items whose level equals the argument, hence at most the number of items |
| `Lexer.ErrorData.HasErrors` | libobs/util/lexer.h:237-245 | true iff some item has the error level, iff the error count is positive |
| `Lexer.Lexer.Init` | libobs/util/lexer.h:254-257 | text and cursor are both NULL |
| `Lexer.Lexer.Free` | libobs/util/lexer.h:259-263 | text and cursor are both NULL afterwards |
| `Lexer.Lexer.Start` | libobs/util/lexer.h:265-270 | the lexer owns a fresh copy of the string with its terminator, and the cursor is at its first character |
| `Lexer.Lexer.StartMove` | libobs/util/lexer.h:272-277 | the lexer owns the given buffer itself, and the cursor is at its start, or NULL for a NULL buffer |
| `Lexer.Lexer.Reset` | libobs/util/lexer.h:279-282 | from any state, the cursor returns to the start of the text (NULL for a NULL text), the text is unchanged, and the cursor then lies inside the text |
| `ShaderParser.VarRole` | libobs/graphics/shader-parser.h:61-70 | uniform iff the uniform flag is set; const iff const is set and uniform is not; no role iff neither flag is set |
| `ShaderParser.ShaderVar.Init` | libobs/graphics/shader-parser.h:56-59 | NULL type, name and mapping, no role, array count 0, empty default value |
| `ShaderParser.ShaderVar.InitParam` | libobs/graphics/shader-parser.h:61-77 | the role given by `VarRole`, the given type and name, NULL mapping, array count 0, empty default value |
| `ShaderParser.ShaderSampler.Init` | libobs/graphics/shader-parser.h:95-98 | NULL name, no states and no values |
| `ShaderParser.ShaderStruct.Init` | libobs/graphics/shader-parser.h:123-126 | NULL name, no members |
| `ShaderParser.ShaderFunc.Init` | libobs/graphics/shader-parser.h:149-158 | the given return type and name, no parameters, NULL body start and end |
| `ShaderParser.ShaderParser.Init` | libobs/graphics/shader-parser.h:183-191 | the parameter, aggregate, sampler and function lists are all empty |
| `ShaderParser.ShaderParser.GetFunc` | libobs/graphics/shader-parser.h:216-227 | returns the lowest-index function with the given name; NULL iff no function has it; changes nothing; only names up to the first match must be set |
| `ShaderParser.ShaderParser.GetStruct` | libobs/graphics/shader-parser.h:229-240 | returns the lowest-index aggregate with the given name; NULL iff no aggregate has it; changes nothing; only names up to the first match must be set |

## Left out

- `strref_cmp`, `strref_cmpi`, `strref_cmp_strref`, `strref_cmpi_strref`, `valid_int_str`, `valid_float_str`, `error_data_buildstring`, `lexer_getbasetoken` and `lexer_getstroffset`. The header only declares them. Their bodies are not part of this model.
- `valid_int_strref` and `valid_float_strref`. They are defined inline, but they only forward a span's origin and length to `valid_int_str` and `valid_float_str`, whose bodies are not part of this model.
- `Lexer.ErrorData.Add`: modelled only as "append one item". How the message is copied or formatted is not part of this model.
- `shader_parse`, `shader_sampler_convert`, `get_shader_param_type`, `get_sample_filter` and `get_address_mode`. They are only declared, and they depend on graphics enums defined elsewhere.
- The embedded `cf_parser` of `shader_parser`, and `cf_parser_init`. The token parser is an external collaborator. A function's body range is kept as optional token indices.
- `error_data_free`, `error_item_free`, `error_item_array_free`, `shader_var_free`, `shader_sampler_free`, `shader_struct_free`, `shader_func_free` and `shader_parser_free`. They release memory, which Dafny's garbage-collected heap does not model. `error_item_free`, and through it `error_item_array_free` and `error_data_free`, also reset each item to zero with `error_item_init`. None of them is modelled.
- `error_item_init`. It zeroes one diagnostic item with `memset` and frees nothing. Only the unmodelled `error_item_free` uses it.
- `base_token_clear` and `base_token_copy`. They are byte-level `memset`/`memcpy` of a token record, which no modelled operation uses.
- `Lexer.StrRef.Add`: `len` is an unbounded `nat`. The `size_t` wrap-around of `len += t->len` is not modelled, because two spans of one allocated buffer cannot add up past `SIZE_MAX`.
- `Lexer.Lexer.Start`: `bstrdup` of a NULL string is not modelled. The argument is a C string without an embedded NUL.
- `Lexer.Lexer.Start` and `Lexer.Lexer.StartMove`: passing the lexer's own text is not modelled as the C behaves. In C, `lexer_free` runs first, so `lexer_start(lex, lex->text)` copies freed memory and `lexer_start_move(lex, lex->text)` adopts a freed pointer. In the model, `Start` takes the string as a value and `StartMove`'s argument keeps the array alive, so both are well defined.
- The parallel `states`/`values` lists of a sampler are kept as two sequences, as in the source. Nothing in the header keeps their lengths equal.
