# Alteryx Python SDK sample tools, modelled in Dafny

This project models the thirteen sample plugins of the Alteryx Python SDK
samples repository. Each plugin is a stateful class that the Alteryx engine
drives through a fixed set of callbacks:

- `pi_init` hands over the configuration.
- `pi_add_incoming_connection` registers an input connection.
- `ii_init` delivers an input's schema (its `RecordInfo`).
- `ii_push_record` delivers one record.
- `ii_close` ends an input.
- `pi_push_all_records` runs tools that have no input.

The host side is modelled abstractly in `host.dfy` (module `Host`):

- A schema is a sequence of field descriptors: name, type, size and scale.
- A record is a sequence of optional values; `None` is a null field.
- A record copier is a sequence of `(destination, source)` index pairs. `ApplyCopies` applies it.
- An output anchor is a class holding its announced schema, its sort string, the records pushed to it, a closed flag, and whether downstream accepts more records.
- Engine messages go to an append-only log. Pre-sort requests go to a second log.
- A text file is a class holding its contents.
- Python exceptions become the `Raised` case of `Outcome<T>`.
- XML configuration elements become `XmlNode` values: missing, or present with optional text.

`text.dfy` (module `Text`) holds the Python string operations the tools use:

- `str.join` and `str.split` on one character;
- `str.replace(c, '')`;
- `str` of a bool and of an int;
- `int()` of a configuration setting's text, with its surrounding whitespace, an optional sign and underscores between digits.

Every plugin file is a module with a `Plugin` class, plus an input class where
the tool has several inputs. The classes' fields are the Python object's
fields, and their methods are the callbacks. Each method's contract states:

- what goes to which anchor;
- what schema is announced;
- what is logged;
- the new state of every field it changes.

Specification functions beside each class state what the callbacks compute, and lemmas prove what the tool promises of them:

- the union layout of field names, and the index map into it;
- the stable sort of connections by name;
- the offset-concatenated join layout;
- the top-N and once-only counters;
- unique/duplicate routing;
- the ID sequence;
- the CSV header and row serialisations and their round trips;
- the sort and filter XML strings.

| file | tool |
|---|---|
| `multi_input_union.dfy` | PySingleMultiInputToolExample: one multi-connection input; records of every connection re-laid onto the union of their field names |
| `multi_input_join.dfy` | PySingleMultiInputExample: the latest record of every connection joined side by side |
| `single_input_output.dfy` | PySingleInputOutputToolExample: first N records, optionally pre-sorted |
| `select_top_n.dfy` | PySelectTopNEngine: first N records, still accepting afterwards |
| `output_tool.dfy` | PyOutputToolExampleEngine: CSV file writer |
| `output_engine.dfy` | PyOutputToolExample/engine.py: comma-separated text writer written at close |
| `sorted_input.dfy` | PySortedInputToolExample: the minimum or maximum of a numeric field |
| `sorted_output.dfy` | PySortedOutputToolExample: filter-and-sort pass-through |
| `sort_xml.dfy` | the sort and filter XML snippets the sorting tools build |
| `optional_input.dfy` | PyOptionalInputToolExample: record ID generator, with or without input |
| `input_tool.dfy` | PyInputToolExample: CSV reader |
| `multiple_outputs.dfy` | PyMultipleOutputsToolExample: unique/duplicate router |
| `optional_output.dfy` | PyOptionalOutputToolExample: pass-through that emits a message before the first record or after the last |
| `multiple_inputs.dfy` | PyMultipleInputsToolExample: left/right schema compatibility check |

## Model

| member | source | states |
|---|---|---|
| Host.Names | PySingleMultiInputToolExample/PySingleMultiInputToolExampleEngine.py:136 | one name per field, in field order |
| Host.NamesConcat | PySingleMultiInputToolExample/PySingleMultiInputToolExampleEngine.py:125-156 | the names of two schemas side by side are the two name lists concatenated |
| Host.FieldNum | PyMultipleOutputsToolExample/PyMultipleOutputsToolExampleEngine.py:138 | the position returned holds the name, and no earlier position does |
| Host.FieldNumAppended | PySingleMultiInputToolExample/PySingleMultiInputToolExampleEngine.py:109 | a name new to the list is found at the position it was appended at |
| Host.Nulls | PySingleMultiInputToolExample/PySingleMultiInputToolExampleEngine.py:165-172 | a record of the given width with every field null |
| Host.Identity | PySingleMultiInputToolExample/PySingleMultiInputToolExampleEngine.py:228-233 | every field i maps to output field i |
| Host.PyInt | PySingleInputOutputToolExample/PySelectTopNEngine.py:80 | `int()` of a setting's text: a value is read only from present, non-empty text |
| Host.GetAsString | PyMultipleOutputsToolExample/PyMultipleOutputsToolExampleEngine.py:153 | a null field reads as None and every other field as some text |
| Host.GetAsStringInt | PyMultipleOutputsToolExample/PyMultipleOutputsToolExampleEngine.py:153 | two integer fields read as the same text exactly when they hold the same number |
| Host.PyIntChars | PySingleInputOutputToolExample/PySelectTopNEngine.py:80 | a number is read only from present text made of whitespace, signs, digits and underscores, with at least one digit |
| Host.PyIntExamples | PySingleInputOutputToolExample/PySelectTopNEngine.py:80 | the decimal text of any integer reads back as that integer; "1_000" reads 1000; a missing text, "abc", "" and "1__0" do not read |
| Text.Join | PyOutputToolExample/PyOutputToolExampleEngine.py:132 | joining one part gives that part |
| Text.Split | PyOutputToolExample/PyOutputToolExampleEngine.py:173 | splitting always gives at least one piece |
| Text.SplitJoin | PyOutputToolExample/PyOutputToolExampleEngine.py:173 | splitting a comma-joined line gives the parts back when no part holds a comma |
| Text.SplitAtSeparator | PyOutputToolExample/PyOutputToolExampleEngine.py:173 | a separator ends the first piece, and the rest splits on its own |
| Text.Remove | PyOutputToolExample/engine.py:108-110 | the character no longer occurs, and a string without it is unchanged |
| Text.RemoveConcat | PyOutputToolExample/engine.py:108-110 | removing a character from a concatenation removes it from each side |
| Text.RemoveKeeps | PyOutputToolExample/engine.py:108-110 | removing one character never introduces another |
| Text.RemoveJoin | PyOutputToolExample/PyOutputToolExampleEngine.py:132-135 | removing a character the separator lacks can be done part by part |
| Text.PyBool | PyOutputToolExample/PyOutputToolExampleEngine.py:159 | the text is "True" exactly when the value is true, and "False" otherwise |
| Text.IntToString | PyInputToolExample/engine.py:165 | a non-empty decimal text that starts with '-' exactly when the number is negative |
| Text.NatToStringRoundTrip | PyInputToolExample/engine.py:165 | reading back the digits printed for a count gives the count |
| Text.IntToStringRoundTrip | PySingleInputOutputToolExample/PySelectTopNEngine.py:80 | `int()` of the decimal text `str` prints for any integer, negative ones included, gives the integer back |
| Text.TrimLeftSpec | PySingleInputOutputToolExample/PySelectTopNEngine.py:80 | the whitespace `int()` skips on the left is exactly the prefix of spaces before the first other character |
| Text.TrimRightSpec | PySingleInputOutputToolExample/PySelectTopNEngine.py:80 | the whitespace `int()` skips on the right is exactly the suffix of spaces after the last other character |
| Text.LiteralChars | PySingleInputOutputToolExample/PySelectTopNEngine.py:80 | a text `int()` accepts holds only whitespace, signs, digits and underscores, and at least one digit |
| Text.SpacedLiteral | PySingleInputOutputToolExample/PySelectTopNEngine.py:80 | `int(" 42\n")` reads 42: the surrounding whitespace is ignored |
| Text.UnderscoredLiteral | PySingleInputOutputToolExample/PySelectTopNEngine.py:80 | `int("1_000")` reads 1000 and a no-break space before a sign is skipped; a doubled, leading or trailing underscore is refused |
| Text.DigitGroupsChars | PySingleInputOutputToolExample/PySelectTopNEngine.py:80 | digit groups joined by single underscores hold only digits and underscores, and start and end with a digit |
| Text.DigitsAreGroups | PySingleInputOutputToolExample/PySelectTopNEngine.py:80 | a non-empty string of plain digits is accepted as one digit group |
| SelectTopN.TopN | PySingleInputOutputToolExample/PySelectTopNEngine.py:77-84 | the forwarded records are a prefix of the received ones, of length min(n, received), none when n <= 0 |
| SelectTopN.TopNStep | PySingleInputOutputToolExample/PySelectTopNEngine.py:77-84 | one more record is forwarded exactly when the count including it is within the limit |
| SelectTopN.Forwarded | PySingleInputOutputToolExample/PySelectTopNEngine.py:73-84 | the records forwarded for a limit setting are a prefix of those received, and none when the setting does not read as an integer |
| SelectTopN.ForwardedStep | PySingleInputOutputToolExample/PySelectTopNEngine.py:73-84 | one more record is forwarded exactly when the setting reads as an integer and the count including the record is within it |
| SelectTopN.Plugin.constructor | PySingleInputOutputToolExample/PySelectTopNEngine.py:42-51 | not initialised, nothing received |
| SelectTopN.Plugin.PiInit | PySingleInputOutputToolExample/PySelectTopNEngine.py:53-58 | a missing NRecords element raises and keeps the old setting; otherwise the setting is the element's text, unparsed, as `find(...).text` leaves it |
| SelectTopN.Plugin.PiPushAllRecords | PySingleInputOutputToolExample/PySelectTopNEngine.py:26-28 | reports the missing input and fails |
| SelectTopN.Plugin.IiInit | PySingleInputOutputToolExample/PySelectTopNEngine.py:60-71 | the output schema is the input schema and the copier maps every field to itself |
| SelectTopN.Plugin.IiPushRecord | PySingleInputOutputToolExample/PySelectTopNEngine.py:73-84 | refused before ii_init; afterwards counted; a setting `int()` cannot read raises; otherwise the record is forwarded unchanged while the count is within the limit, so the output is always Forwarded of the records received, and the call fails only when downstream refuses a forwarded record |
| SelectTopN.Plugin.IiClose | PySingleInputOutputToolExample/PySelectTopNEngine.py:35-37 | the output anchor is closed |
| Host.AddIdentity | PySingleInputOutputToolExample/PySelectTopNEngine.py:67-68 | the copier built by the loop maps every input field to the same output index |
| Host.IdentityCopy | PySingleInputOutputToolExample/PySelectTopNEngine.py:78-79 | copying through the identity copier into a record at least as wide reproduces the source in the first fields and leaves the rest as it was |
| Host.ApplyCopiesAt | PySingleMultiInputExample/engine.py:52-53 | with distinct destinations, each mapping delivers its source value to its destination |
| Host.ApplyCopies | PySingleInputOutputToolExample/PySelectTopNEngine.py:79 | `RecordCopier.copy`: the copies applied in order leave the target record as wide as it was |
| Host.ApplyCopiesUntouched | PySingleMultiInputExample/engine.py:52-53 | a field no mapping writes keeps the target's value |
| MultiInputUnion.LastKeyChar | PySingleMultiInputToolExample/PySingleMultiInputToolExampleEngine.py:120 | the character found is one of the name's characters and is a digit or '+' |
| MultiInputUnion.ConnectionKey | PySingleMultiInputToolExample/PySingleMultiInputToolExampleEngine.py:120 | a key, when there is one, is a single digit's value |
| MultiInputUnion.ConnectionKeyLast | PySingleMultiInputToolExample/PySingleMultiInputToolExampleEngine.py:120 | a trailing digit decides the key, a trailing '+' makes the key fail, and any other trailing character leaves the key as it was |
| MultiInputUnion.HostNamesKeyed | PySingleMultiInputToolExample/PySingleMultiInputToolExampleEngine.py:120 | the connection names `#1` to `#9` sort by their number |
| MultiInputUnion.SortByKeySpec | PySingleMultiInputToolExample/PySingleMultiInputToolExampleEngine.py:120 | the sort result is a permutation of the connections, ordered by key |
| MultiInputUnion.SortByKeyStable | PySingleMultiInputToolExample/PySingleMultiInputToolExampleEngine.py:120 | connections with equal keys keep their original order |
| MultiInputUnion.NewFields | PySingleMultiInputToolExample/PySingleMultiInputToolExampleEngine.py:136-153 | the new fields come from the input and none of their names is taken yet |
| MultiInputUnion.NewFieldsCover | PySingleMultiInputToolExample/PySingleMultiInputToolExampleEngine.py:136-153 | every input field is either taken already or among the new fields |
| MultiInputUnion.NewFieldsDistinct | PySingleMultiInputToolExample/PySingleMultiInputToolExampleEngine.py:136-153 | distinct input names stay distinct among the new fields |
| MultiInputUnion.LayoutDistinct | PySingleMultiInputToolExample/PySingleMultiInputToolExampleEngine.py:125-156 | the output layout never repeats a field name |
| MultiInputUnion.LayoutPrefix | PySingleMultiInputToolExample/PySingleMultiInputToolExampleEngine.py:125-156 | later connections only append to the layout of the earlier ones |
| MultiInputUnion.LayoutFirst | PySingleMultiInputToolExample/PySingleMultiInputToolExampleEngine.py:126-132 | the first connection's fields open the layout, in their order |
| MultiInputUnion.LayoutCovers | PySingleMultiInputToolExample/PySingleMultiInputToolExampleEngine.py:125-156 | every field name of every connection appears in the layout |
| MultiInputUnion.CopierFor | PySingleMultiInputToolExample/PySingleMultiInputToolExampleEngine.py:99-111 | input field i goes to the first output field that has its name |
| MultiInputUnion.CopierForPrefix | PySingleMultiInputToolExample/PySingleMultiInputToolExampleEngine.py:109 | a copier built while the layout grows stays correct when later names are appended |
| MultiInputUnion.CopierLands | PySingleMultiInputToolExample/PySingleMultiInputToolExampleEngine.py:99-111 | each input field lands in a same-named output field, every copy fits both records, and no two inputs share a target |
| MultiInputUnion.Remap | PySingleMultiInputToolExample/PySingleMultiInputToolExampleEngine.py:165-178 | in an output record each input value sits in its same-named field, and every field the input lacks stays null |
| MultiInputUnion.PushedCount | PySingleMultiInputToolExample/PySingleMultiInputToolExampleEngine.py:165-178 | as many records go out as were buffered |
| MultiInputUnion.Plugin.constructor | PySingleMultiInputToolExample/PySingleMultiInputToolExampleEngine.py:10-38 | no connections, no field names and no output schema yet |
| MultiInputUnion.Plugin.PiAddIncomingConnection | PySingleMultiInputToolExample/PySingleMultiInputToolExampleEngine.py:49-60 | a fresh, empty connection with the given type and name is appended to the inputs |
| MultiInputUnion.Plugin.PiPushAllRecords | PySingleMultiInputToolExample/PySingleMultiInputToolExampleEngine.py:70-79 | reports the missing incoming connection and fails |
| MultiInputUnion.Plugin.SetupRecordCopier | PySingleMultiInputToolExample/PySingleMultiInputToolExampleEngine.py:99-111 | the connection's copier maps each field to the first output field with its name |
| MultiInputUnion.Plugin.RecordProcessor | PySingleMultiInputToolExample/PySingleMultiInputToolExampleEngine.py:113-181 | a connection without a sort key raises; otherwise the connections are sorted; a connection without a schema then raises; otherwise the output schema is the union layout, every buffered record goes out remapped in connection order, and the output closes |
| MultiInputUnion.Plugin.Process | PySingleMultiInputToolExample/PySingleMultiInputToolExampleEngine.py:122-181 | a connection without a schema raises with nothing pushed; otherwise the output announces the union layout of the connections' schemas, receives every buffered record re-laid onto it in connection order, and is closed |
| MultiInputUnion.Plugin.Prepare | PySingleMultiInputToolExample/PySingleMultiInputToolExampleEngine.py:122-156 | with every schema present, the layout built is the union of the connections' field names, and every connection's copier points into it by name |
| MultiInputUnion.Plugin.Announce | PySingleMultiInputToolExample/PySingleMultiInputToolExampleEngine.py:158-181 | the anchor announces the layout, receives every connection's buffered records re-laid onto it, in order, and is closed |
| MultiInputUnion.Plugin.AddLayout | PySingleMultiInputToolExample/PySingleMultiInputToolExampleEngine.py:125-156 | one pass of the layout loop: connection k's new names are appended, and every connection up to k has its names in the layout and its copier into them |
| MultiInputUnion.Plugin.SortInputs | PySingleMultiInputToolExample/PySingleMultiInputToolExampleEngine.py:120 | the connections are stably sorted by key, and none is lost or added |
| MultiInputUnion.Plugin.Emit | PySingleMultiInputToolExample/PySingleMultiInputToolExampleEngine.py:122-181 | the layout is announced, the remapped records are pushed, and the output closes |
| MultiInputUnion.Plugin.BuildLayout | PySingleMultiInputToolExample/PySingleMultiInputToolExampleEngine.py:125-156 | the field names are the union layout, and every connection's copier points into it |
| MultiInputUnion.Plugin.GrowLayout | PySingleMultiInputToolExample/PySingleMultiInputToolExampleEngine.py:126-153 | the layout grows by the connection's new fields and keeps every earlier name |
| MultiInputUnion.Plugin.PushBuffered | PySingleMultiInputToolExample/PySingleMultiInputToolExampleEngine.py:165-178 | the output receives every connection's remapped records, in connection order |
| MultiInputUnion.Plugin.PushConnection | PySingleMultiInputToolExample/PySingleMultiInputToolExampleEngine.py:168-178 | one connection's records go out in order, each copied into an all-null record |
| MultiInputUnion.Incoming.constructor | PySingleMultiInputToolExample/PySingleMultiInputToolExampleEngine.py:200-218 | no schema, no records, not complete |
| MultiInputUnion.Incoming.IiInit | PySingleMultiInputToolExample/PySingleMultiInputToolExampleEngine.py:220-240 | the schema is kept, the copier maps every field to itself, and the call succeeds |
| MultiInputUnion.Incoming.IiPushRecord | PySingleMultiInputToolExample/PySingleMultiInputToolExampleEngine.py:242-254 | before ii_init the call raises; after it the record is appended unchanged and accepted |
| MultiInputUnion.Incoming.IiClose | PySingleMultiInputToolExample/PySingleMultiInputToolExampleEngine.py:266-274 | the connection is complete; while another is open nothing goes out; when the last one closes, a connection name without a usable key raises with nothing sorted or pushed, otherwise the inputs are sorted by key; a connection without a schema then raises with nothing pushed, and otherwise the output announces the union layout, receives every buffered record re-laid onto it, and is closed |
| MultiInputJoin.Reversed | PySingleMultiInputExample/engine.py:248-251 | the result has the same length, with the elements from last to first |
| MultiInputJoin.ReversedTwice | PySingleMultiInputExample/engine.py:248-251 | reversing twice restores the original order |
| MultiInputJoin.ReversedMembers | PySingleMultiInputExample/engine.py:248-251 | reversing keeps exactly the same connections |
| MultiInputJoin.ConcatWidth | PySingleMultiInputExample/engine.py:254-289 | the concatenated layout has as many fields as all the connections together |
| MultiInputJoin.OffsetStep | PySingleMultiInputExample/engine.py:289 | each connection starts where the fields of the one before it end |
| MultiInputJoin.OffsetBound | PySingleMultiInputExample/engine.py:257-289 | no connection starts past the total width |
| MultiInputJoin.OffsetMonotone | PySingleMultiInputExample/engine.py:257-289 | later connections never start before earlier ones |
| MultiInputJoin.ConcatSlot | PySingleMultiInputExample/engine.py:257-289 | connection k's field i sits at its start offset plus i in the concatenated layout |
| MultiInputJoin.Shifted | PySingleMultiInputExample/engine.py:234-241 | the copier has one entry per input field |
| MultiInputJoin.ShiftedFits | PySingleMultiInputExample/engine.py:234-241 | each connection's copier fits the full layout and puts every field on a descriptor of that field |
| MultiInputJoin.ShiftedAt | PySingleMultiInputExample/engine.py:234-241 | a shifted copier writes source field j - start to target field j inside its range, and leaves every other field alone |
| MultiInputJoin.JoinedOutside | PySingleMultiInputExample/engine.py:52-53 | a field outside every connection's range keeps the null the record starts with |
| MultiInputJoin.JoinedInside | PySingleMultiInputExample/engine.py:52-53 | with non-overlapping ranges, each field inside connection k's range holds that connection's latest value, or null while it has none |
| MultiInputJoin.JoinSlot | PySingleMultiInputExample/engine.py:42-59 | output field offset(k) + i is declared as connection k's field i and holds that field of its latest record, or null while the connection has sent nothing |
| MultiInputJoin.LayoutAsWrittenStays | PySingleMultiInputExample/engine.py:267-273 | as written, once the first names are recorded no later connection adds a field |
| MultiInputJoin.LayoutAsWritten | PySingleMultiInputExample/engine.py:256-289 | the layout loop as written: the announced layout only grows, keeping the fields already laid out at its start |
| MultiInputJoin.LayoutAsWrittenFirst | PySingleMultiInputExample/engine.py:267-269 | as written, the announced layout is only the first connection's fields |
| MultiInputJoin.LayoutAsWrittenOverrun | PySingleMultiInputExample/engine.py:267-289 | as written, every later connection with a field gets a copier that writes past the announced layout |
| MultiInputJoin.LayoutAsWrittenExample | PySingleMultiInputExample/engine.py:267-289 | two connections `[test, a]` and `[test]`, after the reversal: the announced layout is `[test, a]`, the concatenation has three fields, and the second copier targets output field 2, outside the layout |
| MultiInputJoin.Plugin.constructor | PySingleMultiInputExample/engine.py:84-116 | no connections, no layout and no record creator |
| MultiInputJoin.Plugin.PiAddIncomingConnection | PySingleMultiInputExample/engine.py:154-156 | a fresh connection with the given type and name, not initialised and not closed, is appended to the inputs |
| MultiInputJoin.Plugin.PiPushAllRecords | PySingleMultiInputExample/engine.py:167-174 | reports the missing incoming connection, with the method prefix, and fails |
| MultiInputJoin.Plugin.InitChildRecordCopierTwo | PySingleMultiInputExample/engine.py:234-241 | the connection's copier shifts every field by the start index |
| MultiInputJoin.Plugin.InitTwo | PySingleMultiInputExample/engine.py:243-296 | (corrected layout) with no connection it reports the error and changes nothing; otherwise the connections are reversed; the layout stops at the first connection without a schema, with an error message; when every connection has one, their fields are announced one after the other with matching copiers and record creator |
| MultiInputJoin.Plugin.Reverse | PySingleMultiInputExample/engine.py:248-251 | the connections are reversed |
| MultiInputJoin.Plugin.LayOut | PySingleMultiInputExample/engine.py:254-296 | (corrected layout) the layout reaches the end exactly when every connection has its schema; it is then announced, and otherwise the error is reported and nothing is announced |
| MultiInputJoin.Plugin.LayOutReversed | PySingleMultiInputExample/engine.py:248-296 | (corrected layout) the connections are reversed; the layout reaches the end exactly when every connection has a schema, and the result is then joinable with nothing logged; otherwise the loop stops at the first connection without a schema, reports it, and leaves the record creator and the announced schema as they were |
| MultiInputJoin.Plugin.LayOutWhileInitialized | PySingleMultiInputExample/engine.py:256-288 | (corrected layout) the loop lays out a prefix of the connections and stops at the first one without a schema; the copiers of the connections it did not reach are untouched |
| MultiInputJoin.Plugin.Conclude | PySingleMultiInputExample/engine.py:258-294 | (corrected layout) when every connection was laid out the layout is announced with no sort information and nothing logged; otherwise the error is reported and the creator and the anchor keep their old state |
| MultiInputJoin.Plugin.StopsAtUninitialized | PySingleMultiInputExample/engine.py:257-264 | the loop reaches the end exactly when every connection is initialised |
| MultiInputJoin.Plugin.Announce | PySingleMultiInputExample/engine.py:290-294 | the anchor announces the layout, and the record creator has its width |
| MultiInputJoin.Plugin.LayOutOne | PySingleMultiInputExample/engine.py:257-289 | (corrected layout) connection k's fields are appended after the others, its copier is shifted by the earlier width, and the count grows by its width |
| MultiInputJoin.Plugin.AddSchema | PySingleMultiInputExample/engine.py:289 | appending a connection keeps the earlier offsets and starts the new one at the old width |
| MultiInputJoin.Plugin.JoinLatest | PySingleMultiInputExample/engine.py:49-56 | the record built is the all-null record with every cached record copied in |
| MultiInputJoin.Plugin.JoinCached | PySingleMultiInputExample/engine.py:49-56 | the record built joins the latest cached record of every connection, each in its own slots |
| MultiInputJoin.Plugin.Emit | PySingleMultiInputExample/engine.py:59 | the joined record goes downstream, the answer is whether the anchor accepts, and the layout and caches are kept |
| MultiInputJoin.Plugin.Close | PySingleMultiInputExample/engine.py:303-306 | the output is closed |
| MultiInputJoin.Input.constructor | PySingleMultiInputExample/engine.py:6-21 | no schema, no copier, no cached record, not initialised and not closed |
| MultiInputJoin.Input.IiInit | PySingleMultiInputExample/engine.py:27-37 | (corrected layout) the schema is kept and the call succeeds; while another connection lacks its schema nothing else changes, and once all have one the layout is built |
| MultiInputJoin.Input.IiPushRecord | PySingleMultiInputExample/engine.py:42-59 | (corrected layout) while a connection lacks its schema nothing happens and the call answers False; otherwise the record is cached and one joined record goes out |
| MultiInputJoin.Input.Cache | PySingleMultiInputExample/engine.py:46 | the record is cached on its connection, and the layout stays valid |
| MultiInputJoin.Input.IiClose | PySingleMultiInputExample/engine.py:74-80 | the connection is closed; once every connection is closed the output is closed, and otherwise the output is left as it was |
| SingleInputOutput.Plugin.constructor | PySingleInputOutputToolExample/PySingleInputOutputToolExampleEngine.py:12-36 | no limit, empty sort XML, sorting off, no sort field |
| SingleInputOutput.Plugin.PiInit | PySingleInputOutputToolExample/PySingleInputOutputToolExampleEngine.py:38-68 | a missing NRecords or OrderType element is reported with the XML and raises, keeping what was read before it; otherwise sorting is on exactly when a sort field has been read, and then the sort XML gains one `<SortInfo>` element for that field and order |
| SingleInputOutput.Plugin.BuildSortInfo | PySingleInputOutputToolExample/PySingleInputOutputToolExampleEngine.py:113-128 | the sort XML gains the element wrapping one `<Field>` tag, with the order attribute only for a non-empty order |
| SortXml.FieldTag | PySingleInputOutputToolExample/PySingleInputOutputToolExampleEngine.py:124-125 | the `<Field field="..." />` tag, with the order attribute exactly when an order is given |
| SortXml.SortElement | PySingleInputOutputToolExample/PySingleInputOutputToolExampleEngine.py:123-128 | the text opens with the element's start tag and ends with its end tag |
| SingleInputOutput.Plugin.PiAddIncomingConnection | PySingleInputOutputToolExample/PySingleInputOutputToolExampleEngine.py:70-82 | the connection is pre-sorted with the sort XML exactly when sorting is on; a fresh incoming interface has counted nothing |
| SingleInputOutput.Plugin.PiPushAllRecords | PySingleInputOutputToolExample/PySingleInputOutputToolExampleEngine.py:93-102 | reports the missing input and fails |
| SingleInputOutput.Incoming.constructor | PySingleInputOutputToolExample/PySingleInputOutputToolExampleEngine.py:147-154 | the count starts at zero |
| SingleInputOutput.Incoming.IiInit | PySingleInputOutputToolExample/PySingleInputOutputToolExampleEngine.py:156-170 | the output schema is the input schema |
| SingleInputOutput.Incoming.IiPushRecord | PySingleInputOutputToolExample/PySingleInputOutputToolExampleEngine.py:172-194 | every call is counted; a limit `int()` cannot read raises; otherwise the record is forwarded while the count is within the limit, so the output holds Forwarded of the records received, and the call returns False exactly once the limit is passed |
| SingleInputOutput.Incoming.IiClose | PySingleInputOutputToolExample/PySingleInputOutputToolExampleEngine.py:208-217 | the output anchor is closed |
| SortedInput.ExtractFieldType | PySortedInputToolExample/PySortedInputToolExampleEngine.py:9-19 | an error exactly where Python's indexing raises: metadata without a `<Field>` element, or a first field without attributes |
| SortedInput.AttrValueLast | PySortedInputToolExample/PySortedInputToolExampleEngine.py:17-19 | in an element whose attribute keys are distinct, looking up the last attribute's key gives that attribute's value |
| SortedInput.ExtractFieldTypeIsType | PySortedInputToolExample/PySortedInputToolExampleEngine.py:9-19 | when the first field's last attribute is `type`, the value extracted is the field's type attribute |
| SortedInput.NumericFirstField | PySortedInputToolExample/PySortedInputToolExampleEngine.py:129-137 | for metadata that describes the first field of the schema, the extracted text is that field's type name, and it is in the tool's numeric list exactly when the field's type is Byte, an integer, FixedDecimal, Float or Double |
| SortedInput.RenameField | PySortedInputToolExample/PySortedInputToolExampleEngine.py:141-144 | the field with the old name takes the new name; every other field is unchanged |
| SortedInput.RenameFieldKeepsLayout | PySortedInputToolExample/PySortedInputToolExampleEngine.py:141-144 | renaming the selected field to a new name keeps the names distinct and changes only that one name |
| SortedInput.Plugin.constructor | PySortedInputToolExample/PySortedInputToolExampleEngine.py:40-61 | not initialised, empty sort XML |
| SortedInput.Plugin.BuildSortInfo | PySortedInputToolExample/PySortedInputToolExampleEngine.py:21-36 | the sort XML gains the element wrapping one `<Field>` tag, with the order attribute only for a non-empty order |
| SortedInput.Plugin.PiInit | PySortedInputToolExample/PySortedInputToolExampleEngine.py:63-82 | a missing operationSelect or FieldSelect element raises, keeping what was read before it; otherwise the sort XML gains an ascending `<SortInfo>` for "min", a descending one for "max", none otherwise, and then always an order-less `<FieldFilterList>` on the field |
| SortedInput.Plugin.PiAddIncomingConnection | PySortedInputToolExample/PySortedInputToolExampleEngine.py:84-93 | the connection is pre-sorted with the sort XML built in pi_init |
| SortedInput.Plugin.PiPushAllRecords | PySortedInputToolExample/PySortedInputToolExampleEngine.py:103-111 | reports the missing input and fails |
| SortedInput.Plugin.IiInit | PySortedInputToolExample/PySortedInputToolExampleEngine.py:121-155 | metadata without a usable field raises; a non-numeric type is reported and refused, leaving the tool, the copier and the anchor as they were; otherwise the selected field is renamed `<aggregation>_<field>`, the anchor announces that schema and the copier maps every field to itself; for metadata describing the schema's first field, the call succeeds exactly when that field is numeric |
| SortedInput.Plugin.IiPushRecord | PySortedInputToolExample/PySortedInputToolExampleEngine.py:157-168 | before a successful ii_init the call raises; afterwards the record is forwarded unchanged and the call returns False, so only the first record of the sorted stream goes out |
| SortedInput.Plugin.IiClose | PySortedInputToolExample/PySortedInputToolExampleEngine.py:180-186 | the output anchor is closed |
| OutputTool.Cell | PyOutputToolExample/PyOutputToolExampleEngine.py:155-168 | a null is the empty cell; a bool prints as True or False according to its value; an integer's cell is a literal that `int()` reads back as that integer; a text field's cell is the text itself; a double's cell is the host's own text for it |
| OutputTool.RowRoundTrip | PyOutputToolExample/PyOutputToolExampleEngine.py:173 | a row splits on ',' back into exactly its cells, one per field, when no cell holds a comma |
| OutputTool.Row | PyOutputToolExample/PyOutputToolExampleEngine.py:173 | one CSV row; a record of one field is that field's cell |
| OutputTool.Header | PyOutputToolExample/PyOutputToolExampleEngine.py:132-135 | the header holds no newline |
| OutputTool.HeaderColumns | PyOutputToolExample/PyOutputToolExampleEngine.py:132-135 | removing newlines from the joined names is the same as removing them from each name, so the header splits back into the cleaned names unless a name holds a comma |
| OutputTool.LinesAppend | PyOutputToolExample/PyOutputToolExampleEngine.py:179-185 | appending a row adds a newline and that row at the end of the rows written so far |
| OutputTool.Plugin.constructor | PyOutputToolExample/PyOutputToolExampleEngine.py:11-32 | not initialised, no path |
| OutputTool.Plugin.PiInit | PyOutputToolExample/PyOutputToolExampleEngine.py:34-49 | a missing fileOutputPath element raises with nothing changed; otherwise the path is the element's text and the tool is initialised |
| OutputTool.Plugin.PiAddIncomingConnection | PyOutputToolExample/PyOutputToolExampleEngine.py:51-60 | a fresh incoming interface with no schema that has written nothing yet |
| OutputTool.Plugin.PiPushAllRecords | PyOutputToolExample/PyOutputToolExampleEngine.py:70-78 | the call raises |
| OutputTool.Incoming.constructor | PyOutputToolExample/PyOutputToolExampleEngine.py:103-118 | no schema, no header, first record still to come |
| OutputTool.Incoming.IiInit | PyOutputToolExample/PyOutputToolExampleEngine.py:120-145 | the header is the names joined by ',' without newlines; an unset path and an existing file are reported as errors; the call succeeds in every case |
| OutputTool.Incoming.IiPushRecord | PyOutputToolExample/PyOutputToolExampleEngine.py:147-187 | before ii_init or without a path it raises and the file is unchanged; otherwise the file gains the header and a newline before the first row and a newline before every later row, so it holds what it held before, the header, and every row in order |
| OutputTool.Incoming.WriteRow | PyOutputToolExample/PyOutputToolExampleEngine.py:176-185 | the header goes before the first row and a newline before every row, keeping the file equal to its old contents plus header and rows |
| OutputTool.Incoming.IiClose | PyOutputToolExample/PyOutputToolExampleEngine.py:198-206 | with a path set the file is reported as written; otherwise nothing is logged |
| OutputEngine.Strip | PyOutputToolExample/engine.py:108-110 | the result holds no '[', no ']' and no quote |
| OutputEngine.StripClean | PyOutputToolExample/engine.py:108-110 | text holding none of the three characters is left as it is |
| OutputEngine.StripConcat | PyOutputToolExample/engine.py:108-110 | stripping distributes over concatenation |
| OutputEngine.StripPyList | PyOutputToolExample/engine.py:107-110 | stripping a printed list of names gives the names, each stripped, joined by ", " |
| OutputEngine.StripNull | PyOutputToolExample/engine.py:126-135 | a null, printed as "[Null]", shows as "Null" in a line |
| OutputEngine.LineValues | PyOutputToolExample/engine.py:126-135 | a record's line is its values' texts, each stripped, with "Null" for a null, joined by ", " |
| OutputEngine.Line | PyOutputToolExample/engine.py:126-135 | a record's line holds no '[', no ']' and no quote |
| OutputEngine.AllRecordsJoin | PyOutputToolExample/engine.py:137 | the accumulated text is every line followed by " ", each ending in a newline |
| OutputEngine.AllRecordsLines | PyOutputToolExample/engine.py:137 | for lines without a newline, splitting the accumulated text at newlines gives back each line followed by " ", and an empty last piece |
| OutputEngine.Plugin.constructor | PyOutputToolExample/engine.py:7-31 | not initialised, no schema, nothing accumulated |
| OutputEngine.Plugin.PiInit | PyOutputToolExample/engine.py:40-56 | a missing TextBox1 element logs "pi_init: Invalid XML: " with the XML and raises with nothing changed; otherwise the path is the element's text and the tool is initialised |
| OutputEngine.Plugin.PiAddOutgoingConnection | PyOutputToolExample/engine.py:73-79 | an outgoing connection is reported as an error under the name ii_push_record, and accepted |
| OutputEngine.Plugin.PiPushAllRecords | PyOutputToolExample/engine.py:84-91 | reports the missing input and fails |
| OutputEngine.Plugin.GetFieldNames | PyOutputToolExample/engine.py:100-104 | the field names in schema order |
| OutputEngine.Plugin.IiInit | PyOutputToolExample/engine.py:97-117 | the header is the field names, each stripped of brackets and quotes, joined by ", "; the accumulated lines start over |
| OutputEngine.Plugin.IiPushRecord | PyOutputToolExample/engine.py:122-139 | refused before initialisation; raises without a schema; otherwise the record's line and " \n" are appended to the accumulated text |
| OutputEngine.Plugin.IiClose | PyOutputToolExample/engine.py:153-163 | no path raises; an existing file is reported and left untouched; otherwise the file receives the header, a newline and every accumulated line, and the write is reported |
| SortedOutput.Present | PySortedOutputToolExample/PySortedOutputToolExampleEngine.py:57-59 | the texts of the sort elements that have one, never more than there are elements |
| SortedOutput.PresentAppend | PySortedOutputToolExample/PySortedOutputToolExampleEngine.py:57-59 | the filter keeps element order: an element added last contributes its text, if any, last |
| SortedOutput.FieldListAppend | PySortedOutputToolExample/PySortedOutputToolExampleEngine.py:56-61 | the field tags of two runs of names concatenate |
| SortedOutput.SortFieldStep | PySortedOutputToolExample/PySortedOutputToolExampleEngine.py:56-61 | a sort element with text adds exactly its order-less field tag at the end |
| SortedOutput.SortFieldSkip | PySortedOutputToolExample/PySortedOutputToolExampleEngine.py:56-61 | a sort element without text adds nothing |
| SortedOutput.Plugin.constructor | PySortedOutputToolExample/PySortedOutputToolExampleEngine.py:6-30 | not initialised, not closed, no sort XML |
| SortedOutput.Plugin.PiInit | PySortedOutputToolExample/PySortedOutputToolExampleEngine.py:41-86 | a missing sort element is reported with the XML and raises with only the opening filter tag built; otherwise the filter list and the sort order name the same present sort fields in order |
| SortedOutput.Plugin.PiAddIncomingConnection | PySortedOutputToolExample/PySortedOutputToolExampleEngine.py:97-103 | the connection is pre-sorted with the sort XML |
| SortedOutput.Plugin.PiPushAllRecords | PySortedOutputToolExample/PySortedOutputToolExampleEngine.py:114-121 | reports the missing input and fails |
| SortedOutput.Plugin.IiInit | PySortedOutputToolExample/PySortedOutputToolExampleEngine.py:127-136 | the input schema is announced with the same sort XML the pre-sort used |
| SortedOutput.Plugin.IiPushRecord | PySortedOutputToolExample/PySortedOutputToolExampleEngine.py:141-153 | refused before ii_init; otherwise the record goes on unchanged and the call returns downstream's answer |
| SortedOutput.Plugin.IiClose | PySortedOutputToolExample/PySortedOutputToolExampleEngine.py:170-175 | the anchor and the tool are closed |
| OptionalInput.OutputTypeFor | PyOptionalInputToolExample/PyOptionalInputToolExampleEngine.py:53-59 | a type is set exactly for the names Int16, Int32 and Int64, each to its own type |
| OptionalInput.IdRecordsAt | PyOptionalInputToolExample/PyOptionalInputToolExampleEngine.py:114-140 | the i-th generated record holds first + i * step |
| OptionalInput.IdRecords | PyOptionalInputToolExample/PyOptionalInputToolExampleEngine.py:116-140 | as many ID records as EndValue when it is positive, none otherwise |
| OptionalInput.LastIdClosed | PyOptionalInputToolExample/PyOptionalInputToolExampleEngine.py:187-195 | after k records the counter, started one step before StartValue, holds StartValue + (k - 1) * step |
| OptionalInput.Plugin.constructor | PyOptionalInputToolExample/PyOptionalInputToolExampleEngine.py:6-37 | not initialised, nothing numbered, no output type |
| OptionalInput.Plugin.PiInit | PyOptionalInputToolExample/PyOptionalInputToolExampleEngine.py:46-70 | the settings are read in order; a missing element is reported with the XML and raises, and a text `int()` cannot read raises unreported, each keeping the settings read before it; the counter starts one step before StartValue; the output type changes only for a recognised type name |
| OptionalInput.Plugin.ReadCounts | PyOptionalInputToolExample/PyOptionalInputToolExampleEngine.py:50-52 | EndValue, StepByValue and StartValue are read in that order and the call succeeds exactly when all three read as integers; the first missing one is reported; each count read before a failure is kept, and the counter is StartValue minus the step |
| OptionalInput.Plugin.ReadStep | PyOptionalInputToolExample/PyOptionalInputToolExampleEngine.py:51-52 | StepByValue then StartValue: succeeds exactly when both read as integers, reports only a missing element, keeps the step once read, and leaves the counter one step before StartValue |
| OptionalInput.Plugin.ReadInt | PyOptionalInputToolExample/PyOptionalInputToolExampleEngine.py:50-52 | `int(find(...).text)`: succeeds exactly when the element is present and its text reads, with that value; only a missing element is reported |
| OptionalInput.Plugin.PiPushAllRecords | PyOptionalInputToolExample/PyOptionalInputToolExampleEngine.py:95-142 | without an output type the call raises; otherwise the schema is the one ID field and exactly EndValue records go out (none when it is not positive), the i-th holding StartValue + i * step |
| OptionalInput.Plugin.LayOutFor | PyOptionalInputToolExample/PyOptionalInputToolExampleEngine.py:151-171 | the output schema is the input's with the ID field appended, the copier maps every input field to itself, and the ID goes to the first field with its name, the appended one when the name is new |
| OptionalInput.Plugin.IiInit | PyOptionalInputToolExample/PyOptionalInputToolExampleEngine.py:148-175 | the input schema is kept; without an output type the call raises before the anchor is initialised; otherwise the anchor announces the input schema plus the ID field and the tool is initialised |
| OptionalInput.Plugin.IiPushRecord | PyOptionalInputToolExample/PyOptionalInputToolExampleEngine.py:180-205 | refused before ii_init; otherwise the k-th record numbered goes out as the input record with StartValue + (k - 1) * step in the ID field, and the call returns downstream's answer |
| OptionalInput.Plugin.IiClose | PyOptionalInputToolExample/PyOptionalInputToolExampleEngine.py:222-225 | the output anchor is closed |
| InputTool.SplitExt | PyInputToolExample/engine.py:44 | splitting the path gives back the path, and the extension is empty or starts with a dot |
| InputTool.IsCsvIff | PyInputToolExample/engine.py:43-47 | a path is accepted exactly when it ends in ".csv" or ".CSV" and the file name before that suffix holds a character other than a dot |
| InputTool.ColumnSchema | PyInputToolExample/engine.py:129-137 | one field per header name, in order, each a 254-character V_String with scale 0 |
| InputTool.Keys | PyInputToolExample/engine.py:155 | the distinct column names in order of first appearance, holding exactly the header's names |
| InputTool.KeysDistinct | PyInputToolExample/engine.py:155 | a header that repeats no name is its own key list |
| InputTool.Lookup | PyInputToolExample/engine.py:155 | the value of a name in a row is the cell of the last column with that name |
| InputTool.RowRecord | PyInputToolExample/engine.py:153-156 | the record is as wide as the header; field i holds the value of the i-th distinct name, and the fields past the distinct names stay null |
| InputTool.RowRecordDistinct | PyInputToolExample/engine.py:153-156 | with distinct column names, field i holds the string in column i |
| InputTool.RowRecordRepeated | PyInputToolExample/engine.py:153-156 | with the header a,a and the row 1,2 the record is the later value "2" then a null |
| InputTool.RowRecordFields | PyInputToolExample/engine.py:153-156 | a field is null exactly when it lies past the distinct names; otherwise it holds the string of a cell under the field's own name |
| InputTool.RowRecords | PyInputToolExample/engine.py:151-156 | one record per row, the i-th being that row's RowRecord |
| InputTool.ReadReportCount | PyInputToolExample/engine.py:165 | the closing report starts with the row count in decimal, and those digits read back as the count |
| InputTool.Plugin.constructor | PyInputToolExample/engine.py:8-40 | not initialised, not closed, the default path configured |
| InputTool.Plugin.PiInit | PyInputToolExample/engine.py:56-80 | a missing browseFiles element logs "pi_init: Invalid XML: " with the XML and raises with nothing changed; otherwise the path is the element's text and the tool is initialised |
| InputTool.Plugin.PiClose | PyInputToolExample/engine.py:85-88 | the tool and its output anchor are closed |
| InputTool.Plugin.PiAddIncomingConnection | PyInputToolExample/engine.py:93-99 | an incoming connection is reported as an error |
| InputTool.Plugin.PiPushAllRecords | PyInputToolExample/engine.py:110-167 | false before pi_init; a non-CSV path logs the error and pushes nothing; an unset path, an unreadable file or a file without header raises; on every path that does not return true the anchor's schema, sort information and records are left as they were; the tool's own output schema is kept on the not-initialised, unset-path and non-CSV paths, and is reset to an empty schema before an unreadable file or a file without header raises; otherwise the schema is the header's columns, the records pushed are RowRecords of the rows, followed by the row-count report |
| InputTool.Plugin.IiInit | PyInputToolExample/engine.py:174-180 | the input is refused with an error message |
| InputTool.Plugin.IiPushRecord | PyInputToolExample/engine.py:185-191 | the record is refused with an error message |
| InputTool.Plugin.IiUpdateProgress | PyInputToolExample/engine.py:198-204 | reported as an error |
| InputTool.Plugin.IiClose | PyInputToolExample/engine.py:209-215 | reported as an error |
| MultipleOutputs.KeySetMembers | PyMultipleOutputsToolExample/PyMultipleOutputsToolExampleEngine.py:155 | the key set holds exactly the keys added |
| MultipleOutputs.UniquesCount | PyMultipleOutputsToolExample/PyMultipleOutputsToolExampleEngine.py:155-163 | Unique receives exactly one record per distinct key |
| MultipleOutputs.RoutesPartition | PyMultipleOutputsToolExample/PyMultipleOutputsToolExampleEngine.py:155-163 | every record goes to exactly one of the two anchors |
| MultipleOutputs.RouteStep | PyMultipleOutputsToolExample/PyMultipleOutputsToolExampleEngine.py:155-163 | a record with a new key extends Unique only, a record with a seen key extends Duplicate only |
| MultipleOutputs.SetGrows | PyMultipleOutputsToolExample/PyMultipleOutputsToolExampleEngine.py:33 | adding a key grows the set by one exactly when the key is new, and leaves it as it was otherwise |
| MultipleOutputs.Plugin.constructor | PyMultipleOutputsToolExample/PyMultipleOutputsToolExampleEngine.py:41-63 | empty key set, previous length 0, nothing received, no target anchor |
| MultipleOutputs.Plugin.SetKeySetPreviousLen | PyMultipleOutputsToolExample/PyMultipleOutputsToolExampleEngine.py:15-23 | the remembered length is the size of the set passed |
| MultipleOutputs.Plugin.SetOutputDirection | PyMultipleOutputsToolExample/PyMultipleOutputsToolExampleEngine.py:25-37 | the target is Unique exactly when the set is larger than its remembered length, Duplicate otherwise |
| MultipleOutputs.Plugin.PiInit | PyMultipleOutputsToolExample/PyMultipleOutputsToolExampleEngine.py:65-78 | a missing FieldSelect element is reported with the XML and raises; otherwise the selected field is its text |
| MultipleOutputs.Plugin.PiPushAllRecords | PyMultipleOutputsToolExample/PyMultipleOutputsToolExampleEngine.py:97-105 | reports the missing input and fails |
| MultipleOutputs.Plugin.IiInit | PyMultipleOutputsToolExample/PyMultipleOutputsToolExampleEngine.py:115-139 | both anchors announce the input schema, the copier maps every field to itself and the tool is initialised; the key index is the first field with the selected name, and the call raises keeping the old index when there is none |
| MultipleOutputs.Plugin.IiPushRecord | PyMultipleOutputsToolExample/PyMultipleOutputsToolExampleEngine.py:141-163 | refused before ii_init; raises when the key index is past the record; otherwise the key is the field's text from get_as_string, and the record goes unchanged to Unique exactly when that key is new, to Duplicate otherwise, so the anchors always hold Uniques and Dupes of everything received |
| MultipleOutputs.Plugin.Route | PyMultipleOutputsToolExample/PyMultipleOutputsToolExampleEngine.py:155-163 | the key joins the key set; a new key sends the record to Unique only, a seen key to Duplicate only, and the answer is the target anchor's |
| MultipleOutputs.Plugin.IiClose | PyMultipleOutputsToolExample/PyMultipleOutputsToolExampleEngine.py:176-183 | both anchors are closed |
| OptionalOutput.MessageKindFor | PyOptionalOutputToolExample/PyOptionalOutputToolExampleEngine.py:115-122 | each of the four settings selects its own message kind, and every other setting selects none |
| OptionalOutput.Displayed | PyOptionalOutputToolExample/PyOptionalOutputToolExampleEngine.py:107-123 | one message of the selected kind with the configured text, or nothing for an unknown kind |
| OptionalOutput.Plugin.constructor | PyOptionalOutputToolExample/PyOptionalOutputToolExampleEngine.py:6-34 | not initialised, nothing pushed |
| OptionalOutput.Plugin.PiInit | PyOptionalOutputToolExample/PyOptionalOutputToolExampleEngine.py:36-50 | the timing, kind and text settings in that order; a missing element raises, keeping the settings read before it |
| OptionalOutput.Plugin.PiPushAllRecords | PyOptionalOutputToolExample/PyOptionalOutputToolExampleEngine.py:69-77 | reports the missing input and fails |
| OptionalOutput.Plugin.IiInit | PyOptionalOutputToolExample/PyOptionalOutputToolExampleEngine.py:87-105 | the output schema is the input schema and the copier maps every field to itself |
| OptionalOutput.Plugin.DisplayMessage | PyOptionalOutputToolExample/PyOptionalOutputToolExampleEngine.py:107-123 | the log gains exactly what Displayed says |
| OptionalOutput.Plugin.IiPushRecord | PyOptionalOutputToolExample/PyOptionalOutputToolExampleEngine.py:125-147 | refused before ii_init; otherwise the counter saturates at 2, the record is passed on unchanged with downstream's answer, and the message is written with the first record only, when the timing is beforeFirstRecord |
| OptionalOutput.Plugin.IiClose | PyOptionalOutputToolExample/PyOptionalOutputToolExampleEngine.py:159-168 | the message is written when the timing is afterLastRecord, and the anchor is closed |
| MultipleInputs.EqualTypeSymmetric | PyMultipleInputsToolExample/PyMultipleInputsToolExampleEngine.py:30-32 | the field comparison is symmetric and ignores names |
| MultipleInputs.ChangeToBool | PyMultipleInputsToolExample/PyMultipleInputsToolExampleEngine.py:52-58 | every field becomes a one-byte Bool and keeps its name and scale |
| MultipleInputs.ChangeToBoolIdempotent | PyMultipleInputsToolExample/PyMultipleInputsToolExampleEngine.py:52-58 | converting twice is converting once, and the names are kept |
| MultipleInputs.OutputSchemaLayout | PyMultipleInputsToolExample/PyMultipleInputsToolExampleEngine.py:89-105 | the output has left + right + 1 fields, named left's, then right's, then IsBinaryCompatible, all one-byte Bools |
| MultipleInputs.OutputSchema | PyMultipleInputsToolExample/PyMultipleInputsToolExampleEngine.py:89-105 | left + right + 1 fields, every one a one-byte Bool |
| MultipleInputs.ComparisonSlots | PyMultipleInputsToolExample/PyMultipleInputsToolExampleEngine.py:114-133 | every slot is a non-null Bool, the two halves agree, and the last slot is the compatibility flag |
| MultipleInputs.Comparison | PyMultipleInputsToolExample/PyMultipleInputsToolExampleEngine.py:114-133 | the comparison record has one slot per right field, twice, and the compatibility flag |
| MultipleInputs.ComparisonAllTrue | PyMultipleInputsToolExample/PyMultipleInputsToolExampleEngine.py:114-133 | the record is all true exactly when every field pair has equal type, size and scale and the hashes agree |
| MultipleInputs.Plugin.constructor | PyMultipleInputsToolExample/PyMultipleInputsToolExampleEngine.py:6-21 | left phase, no hashes, no fields, no output schema |
| MultipleInputs.Plugin.IsCompatible | PyMultipleInputsToolExample/PyMultipleInputsToolExampleEngine.py:23-28 | two inputs with the same fields are compatible; an input that has a hash is never compatible with one that has none; two without hashes are compatible |
| MultipleInputs.Plugin.IsEqual | PyMultipleInputsToolExample/PyMultipleInputsToolExampleEngine.py:30-32 | true exactly when the right field at the index, given the left field's name, is the left field: the same type, size and scale |
| MultipleInputs.Plugin.ValidateInputs | PyMultipleInputsToolExample/PyMultipleInputsToolExampleEngine.py:34-41 | raises exactly when the counts differ, after reporting the mismatch |
| MultipleInputs.Plugin.PiPushAllRecords | PyMultipleInputsToolExample/PyMultipleInputsToolExampleEngine.py:70-76 | reports the missing input (with the source's spelling) and fails |
| MultipleInputs.Plugin.IiInit | PyMultipleInputsToolExample/PyMultipleInputsToolExampleEngine.py:82-108 | the left input's hash, computed from its schema, and its fields are recorded; for the right input too, keeping the left's, then a count mismatch is reported and raises, a missing left schema raises, and otherwise the anchor announces the all-Bool comparison schema |
| MultipleInputs.Plugin.IiPushRecord | PyMultipleInputsToolExample/PyMultipleInputsToolExampleEngine.py:110-135 | a left record is refused; a right record before the output exists raises; otherwise one comparison record as wide as the output schema goes out, and the call still answers False |
| MultipleInputs.Plugin.BuildComparison | PyMultipleInputsToolExample/PyMultipleInputsToolExampleEngine.py:114-133 | the record built slot by slot is the comparison record |
| MultipleInputs.Plugin.IiClose | PyMultipleInputsToolExample/PyMultipleInputsToolExampleEngine.py:145-150 | the first close ends the left phase; any later one closes the output |

## Left out

- The host SDK's internals are not modelled: `RecordInfo`, `RecordCopier`, `RecordCreator`, output anchors, `equal_type`, `get_hash`, `pre_sort` and message sinks. They are foreign code, and `Host` gives them abstract counterparts.
- XML parsing of the configuration is not modelled. Each tool's `PiInit` takes the values `find(...)` would have extracted, as `XmlNode` or `Option` parameters. It models the error paths of missing elements, and `int()` of the texts the tools convert, with Python's error when the text does not read (non-ASCII digits aside, see below).
- `get_output_anchor` is not modelled: each anchor is a constructor parameter. As a result, the union tool's `pi_init`, which only fetches the anchor, has no counterpart.
- Progress reporting is not modelled, except the CSV reader's `ii_update_progress`, which only reports an error (InputTool.Plugin.IiUpdateProgress). Every other tool's `ii_update_progress`, the union tool's `process_update_input_progress` and the join tool's `update_progress` are left out. They work on floating-point percentages, and no tool's output depends on them.
- `pi_close` is modelled only for the CSV reader, whose `pi_close` closes its output anchor (InputTool.Plugin.PiClose). In the other tools `pi_close` does nothing or only calls `assert_close`, host bookkeeping with no effect on the output, and is left out.
- File-system access is not modelled. `os.access` and the existence of the file become parameters or fields. The written file is a `TextFile` buffer.
- `csv.DictReader` is modelled from its header and rows: each row is keyed by the header names, and the last column with a name wins (InputTool.Keys, InputTool.Lookup). The rows are given as `DictReader` yields them, with blank lines already skipped. The file's decoding (`errors='replace'`) and CSV quoting are not modelled.
- Floating-point values are carried as the host's text for them, so float-to-string conversion is not modelled. `get_as_string` is modelled by `Host.GetAsString` for the other value kinds.
- The quoting and escaping that `repr` does inside `str(list)` is modelled only for names and values that hold no quote, backslash, newline, tab or other control character. `repr` switches to double quotes or escapes those, and the model does not.
- Python's `str(int)` is modelled for integers, with a leading '-' for negative values. Strings are sequences of characters, with no Unicode normalisation.
- The join tool's debug prints at PySingleMultiInputExample/engine.py:274-281 are not modelled. This includes `record_info_out_two[1]`, which would raise on a layout with fewer than two fields.
- The join tool's unused `new_fields` computation (PySingleMultiInputExample/engine.py:272-273) is not modelled, and neither is its unused `init` and `init_child_record_copier` path (PySingleMultiInputExample/engine.py:177-230).
- MultiInputJoin.Plugin: `primary_field_names` is not kept as a field. The as-written layout function starts it empty, as the constructor does, and the corrected layout does not use it.
- MultiInputJoin.Input: a copier that has not been set up yet (`None` in Python) is modelled as the empty copier. Nothing reads it before `init_two` sets it.
- MultiInputJoin.Input.IiInit: requires the connection not to have been initialised yet. The host delivers each connection's schema once.
- MultiInputUnion.Incoming.IiInit: requires an empty record buffer, because the host initialises a connection before it pushes any record. It also requires distinct field names. That is an assumption of the model: the source keeps both copies of a repeated name in `new_fields` (PySingleMultiInputToolExample/PySingleMultiInputToolExampleEngine.py:139) and maps both to the first with `.index` (line 109), and the model does not cover that case.
- InputTool.Plugin.PiPushAllRecords and MultipleInputs.Plugin.IiInit: both announce schemas that can repeat a name, for a header like `a,a` or for left and right inputs sharing names. How the host's `add_field` and `init_from_xml` handle a repeated name is not modelled; the model announces the names as given.
- MultiInputUnion.Incoming.IiClose: requires that the record processing has not run yet. The host closes each connection once, so the processing runs at most once.
- MultiInputUnion.Plugin.RecordProcessor: a connection name without a digit or '+' (an `IndexError`), and one whose last match is '+' (a `ValueError`), are both modelled as `Raised`, without the exception's kind.
- Every `IiPushRecord` requires the record to be as wide as the schema its connection announced. The host guarantees this.
- Some constructors require a fresh anchor: no records pushed yet, or no schema announced yet. The host hands every plugin new anchors.
- SortedOutput.Plugin.PiAddIncomingConnection and SortedOutput.Plugin.IiInit: require the sort string to be built. The host does not proceed after `pi_init` raises.
- OptionalInput.Plugin.PiInit and OptionalInput.Plugin.PiPushAllRecords: require that no input was initialised and no record numbered yet. `pi_init` runs first, and `pi_push_all_records` runs only when no input is connected.
- MultipleInputs.Plugin.IiInit: requires each of the left and right inputs to be initialised once, with the left input first. This is the host's callback order that the tool relies on (PyMultipleInputsToolExample/PyMultipleInputsToolExampleEngine.py:83, 146-147).
- SelectTopN.Plugin.PiInit: requires that no record was received yet, because `pi_init` runs before any push.
- OptionalOutput.Plugin.PiInit: requires that no record was pushed yet, for the same reason.
- InputTool.Plugin.PiPushAllRecords: requires every CSV row to have as many cells as the header. Repeated header names are modelled: `DictReader` keeps the last column's value under each name, and the fields past the distinct names stay null. The row padding and overflow collection of `DictReader` are not modelled.
- The undefined `Sdk`/`xmsg` at PyOutputToolExample/PyOutputToolExampleEngine.py:46 and the `raise` of None at PyMultipleInputsToolExample/PyMultipleInputsToolExampleEngine.py:36 are modelled as `Raised`.
- MultipleInputs.Plugin.IsCompatible: the host's `get_hash` is a constructor parameter `hashOf`, with no property assumed. The contract states that equal schemas are compatible, but not that different schemas are incompatible, because two schemas can share a hash.
- The removal of newlines and tabs from the comparison schema's XML text at PyMultipleInputsToolExample/PyMultipleInputsToolExampleEngine.py:101 is not modelled. The model builds the schema itself, not its XML text.
- OptionalInput.Plugin.PiInit: an empty FieldName element (text None in Python) is taken as the empty name.
- OptionalOutput.Plugin.PiInit: an empty messageString element (text None in Python) is stored as the empty text. The host's `output_message` given None is not modelled.
- MultiInputJoin.Plugin and MultiInputJoin.Input: these model the corrected layout from "## Findings", every connection's fields one after the other. The as-written layout, which keeps only the first connection's fields, lives only in `MultiInputJoin.LayoutAsWritten` and the lemmas about it.
- OptionalInput.IdRecordsAt, OptionalInput.Plugin.PiPushAllRecords and OptionalInput.Plugin.IiPushRecord: the ID is the unbounded StartValue + i * step. The width of the chosen Int16, Int32 or Int64 field, and what the host's `set_from_int64` does with an ID outside it or outside 64 bits, are not modelled.
- Host.PyInt and Text.IsIntLiteral: decimal digits outside ASCII, such as Arabic-Indic or full-width digits, are refused, where Python's `int()` converts them. Whitespace follows `str.isspace`, and single underscores between digits are accepted, as in Python.
- MultiInputJoin.Plugin: the corrected layout keeps every connection's field names as they are. The unused `init` (PySingleMultiInputExample/engine.py:215-218) prefixes each connection's names with its type and name, so its layout would not repeat a name; the corrected layout drops that prefix, and two connections sharing a name (as in `MultiInputJoin.LayoutAsWrittenExample`) give a layout that repeats it.
- MultiInputUnion.LastKeyChar: the pattern `[\d+]` also matches decimal digits outside ASCII; the model matches only '0' to '9' and '+', and skips every other character.
- MultiInputUnion.ConnectionKey: a trailing non-ASCII decimal digit, which Python's `int()` converts into the key, is skipped, so the key comes from an earlier ASCII digit or is missing. The host names connections `#1`, `#2` and so on, which the model covers.
- MultiInputUnion.ConnectionKeyLast: its third ensures covers a trailing non-ASCII decimal digit as a character the pattern ignores, where Python would take that digit as the key.
- Ghost out-parameters and ghost fields (`layout`, the schema and buffer snapshots) exist only to state contracts. The Python objects have no counterpart for them.

## Findings

| source | as written | input that shows it | evidently intended | confidence | as-written member | corrected member |
|---|---|---|---|---|---|---|
| PySingleMultiInputExample/engine.py:267-289 | `init_two` adds fields to the output layout only while `primary_field_names` is empty, so only the fields of the first connection it sees are announced. The copier of every later connection still writes to `field_count + idx`, past the end of that layout. | two initialised connections, `[test, a]` and `[test]` after the reversal at engine.py:248-251: every connection has the `test` field the debug lookups at engine.py:280-281 ask for, and the layout has the second field `record_info_out_two[1]` reads; the announced layout is `[test, a]`, and the second copier targets output field 2 | every copier lands inside the announced layout. Concatenating every connection's fields is what the copiers' offsets and the field count of the unused `init` (PySingleMultiInputExample/engine.py:203-222) assume; the unused `new_fields` at engine.py:272-273 suggests a union of names was also considered | not executed | MultiInputJoin.LayoutAsWrittenOverrun, MultiInputJoin.LayoutAsWrittenExample | MultiInputJoin.JoinSlot, MultiInputJoin.ConcatSlot, MultiInputJoin.Plugin.InitTwo |
