# LLM glue scripts: the decision logic, modelled in Dafny

The repository is a set of example scripts that wire together a model-serving
endpoint, an agent framework, an MCP tool server and a small Flask service.
Most of it only builds framework objects. This project models the parts that
make their own decisions:

- **Conversation trimming** (`trim_messages` in `Test/TestHistory.py`). This
  middleware shortens a long history to its first message plus the last three
  messages (even length) or the last four (odd length). It reports the change
  as a remove-all marker followed by the kept messages. Messages are an opaque
  type parameter. `History.Apply` gives the marker its meaning: it empties the
  stored history.
- **Weather lookup** (`get_weather`). The same closed-set lookup appears in the
  LangChain tool (`chapter07-langgraph/tools.py`) and in the MCP server
  (`chapter07-langgraph/mcp_server.py`). The city is lower-cased and compared
  with `"beijing"` and `"shanghai"`. A match returns that city's canned record.
  Anything else returns the `city_not_found` error dict. Each module keeps its
  own copy of the literals, and a lemma proves that the two copies agree.
- **`write_file`** overwrites `res.txt`. It is a class whose `contents` field
  is replaced on each write. The tools' pydantic argument schemas
  (`WeatherQuery`, `WriteQuery`) are modelled too.
- **The chat client** (`chapter07-langgraph/test_mcp_client.py`):
  - the `mcpServers` default taken from the parsed configuration;
  - the argument names `print_tool_info` shows;
  - the numbered tool list put into the agent's prompt;
  - the classification of each input line;
  - the input loop, fed the typed lines as a sequence;
  - the choice of which reply to show.
- **The `/query` route** (`mcp_project/mcp_service.py`). A missing or falsy
  `question` gets status 400 with a fixed error body. Any other question goes
  unchanged to the query service and its answer is wrapped under `response`.
  The query service is a function parameter that returns an answer or
  raises; when it raises, Flask answers status 500 with its error page.

Shared modules:

- `Wrappers` holds Option and Result.
- `Json` holds the JSON values the scripts receive. An object is an ordered
  list of members, because Python dicts keep insertion order and
  `dict.keys()` reports it.
- `Text` holds Python's `str.lower`, `str.strip`, decimal rendering in
  f-strings and `str.join`.

Two facts about the code shape the model:

- `/query` rejects every falsy `question` (`None`, `false`, `0`, `0.0`, `""`,
  `[]`, `{}`), not only an absent or empty one.
- The only tool-side error the code produces is the weather lookup's
  `city_not_found` dict. Argument validation against the schema and the
  wrapping of handler exceptions are done by the MCP and LangChain
  frameworks, not by this code.

## Model

| member | source | states |
|---|---|---|
| History.KeptMessages | workspace_llm/workspace_llm/Test/TestHistory.py:16-21 | no change (None) exactly when there are at most 3 messages; otherwise 4 messages for an even-length history and 5 for an odd one, never more than the input; the first kept message is `messages[0]`; the rest is the contiguous tail of the input in order |
| History.TrimMessages | workspace_llm/workspace_llm/Test/TestHistory.py:23-28 | the update is one remove-all marker followed by exactly the kept messages, in order, and nothing else; None exactly when there are at most 3 messages |
| History.TrimmedState | workspace_llm/workspace_llm/Test/TestHistory.py:23-28 | applying the update to any stored history leaves exactly the kept messages |
| History.ShortHistoryKept | workspace_llm/workspace_llm/Test/TestHistory.py:16-21 | a history of 4 or 5 messages is kept whole |
| History.TrimIdempotent | workspace_llm/workspace_llm/Test/TestHistory.py:16-21 | trimming the kept messages again keeps all of them |
| Text.Lower | workspace_llm/workspace_llm/chapter07-langgraph/tools.py:46 | the model's `str.lower()` keeps the length and folds each character on its own (see Left out for the characters where Python differs) |
| Text.Strip | workspace_llm/workspace_llm/chapter07-langgraph/test_mcp_client.py:322 | `str.strip()` gives the slice of the input that follows its leading whitespace and is followed only by whitespace; the slice neither starts nor ends with whitespace; it is empty exactly when the input is all whitespace |
| Text.StripRemovesOnlySpace | workspace_llm/workspace_llm/chapter07-langgraph/test_mcp_client.py:322 | the input is its leading whitespace, then the stripped text, then the rest, in that order |
| Tools.GetWeather | workspace_llm/workspace_llm/chapter07-langgraph/tools.py:46-84 | a record is returned exactly when the lower-cased city is "beijing" or "shanghai"; the record's name lower-cases to the lower-cased query; it has cod 200 and country CN; its id is 1816670 for Beijing and 1796236 for Shanghai; any other input gives error "city_not_found" with the fixed message |
| Tools.GetWeatherTotal | workspace_llm/workspace_llm/chapter07-langgraph/tools.py:46-90 | every city gets exactly one of three fixed answers, and the two records differ |
| Tools.GetWeatherOfLowerForm | workspace_llm/workspace_llm/chapter07-langgraph/tools.py:46-64 | the answer for a city equals the answer for its lower-case form |
| Tools.BeijingAnyCase | workspace_llm/workspace_llm/chapter07-langgraph/tools.py:46-62 | every upper/lower-case spelling of "beijing" finds the Beijing record |
| Tools.RequiredNames | workspace_llm/workspace_llm/chapter07-langgraph/tools.py:11-29 | the required argument names are exactly the names of the required fields |
| Tools.SchemaShapes | workspace_llm/workspace_llm/chapter07-langgraph/tools.py:11-29 | each schema has exactly one string field, which is required: `city` for the weather tool and `content` for the write tool |
| Tools.ResultFile.WriteFile | workspace_llm/workspace_llm/chapter07-langgraph/tools.py:105-108 | afterwards the file exists and holds exactly `content`, whatever it held before; the return value is the fixed confirmation |
| Tools.WriteTwice | workspace_llm/workspace_llm/chapter07-langgraph/tools.py:105-106 | after two writes the file holds only the second content (last write wins); both confirmations are the fixed message |
| McpServer.GetWeather | workspace_llm/workspace_llm/chapter07-langgraph/mcp_server.py:28-67 | the same characterisation as the tool: a record exactly for "beijing"/"shanghai" in any case, named after the query, with cod 200; otherwise the `city_not_found` error |
| McpServer.RecordsDistinct | workspace_llm/workspace_llm/chapter07-langgraph/mcp_server.py:42-61 | the two success records differ in name and in id |
| McpServer.AgreesWithTool | workspace_llm/workspace_llm/chapter07-langgraph/mcp_server.py:28-73 | the server's lookup equals the LangChain tool's on every input |
| McpServer.CaseInsensitive | workspace_llm/workspace_llm/chapter07-langgraph/mcp_server.py:28-46 | cities with the same lower-case form get identical answers |
| ChatClient.ServersFromConfig | workspace_llm/workspace_llm/chapter07-langgraph/test_mcp_client.py:62-70 | a top-level non-object has no `.get` and fails; a truthy "mcpServers" value that is not an object fails in the `len(servers)`/`servers.keys()` log line; otherwise the result is the "mcpServers" value when present (as stored) and `{}` when absent, so a successful result is an object or falsy |
| ChatClient.MissingServersIsEmpty | workspace_llm/workspace_llm/chapter07-langgraph/test_mcp_client.py:63-66 | a configuration without "mcpServers" yields an empty, falsy server map |
| ChatClient.Properties | workspace_llm/workspace_llm/chapter07-langgraph/test_mcp_client.py:102-104 | there is a properties dict exactly when the schema is a dict whose "properties" value is a dict; the returned members are exactly that "properties" dict, whose keys are distinct |
| ChatClient.ArgNames | workspace_llm/workspace_llm/chapter07-langgraph/test_mcp_client.py:100-106 | the names are the keys of the schema's "properties" dict, in order, with no name twice; there are none when the schema or its properties are not a dict |
| ChatClient.ArgsLine | workspace_llm/workspace_llm/chapter07-langgraph/test_mcp_client.py:104-113 | the "参数: …" line exists exactly when there is at least one argument name, and joins the names with ", " |
| ChatClient.ArgNamesInLine | workspace_llm/workspace_llm/chapter07-langgraph/test_mcp_client.py:104-106 | every argument name occurs in the "参数: …" line |
| ChatClient.OneArgument | workspace_llm/workspace_llm/chapter07-langgraph/test_mcp_client.py:103-106 | a schema whose properties hold one entry yields that single name and the line "参数: name" |
| ChatClient.ToolLineNumber | workspace_llm/workspace_llm/chapter07-langgraph/test_mcp_client.py:276-279 | the decimal number a tool line starts with reads back as the tool's position |
| ChatClient.DescribeTools | workspace_llm/workspace_llm/chapter07-langgraph/test_mcp_client.py:275-282 | min(n, 10) lines plus one overflow line exactly when n > 10; line i describes tool i+1 in list order, with the `tool_{i}` and "无描述" fallbacks, and starts with the number i+1; the overflow line counts n − 10 |
| ChatClient.Classify | workspace_llm/workspace_llm/chapter07-langgraph/test_mcp_client.py:322-346 | the line is stripped first; Skip exactly when the stripped line is empty; Exit exactly for quit/exit/q in any case; ListTools exactly for "tools"; Help exactly for "help"; any other line is asked as typed (stripped, not lowered) and is never empty |
| ChatClient.ClassifyStripped | workspace_llm/workspace_llm/chapter07-langgraph/test_mcp_client.py:322 | surrounding whitespace never changes the classification |
| ChatClient.AskIsStable | workspace_llm/workspace_llm/chapter07-langgraph/test_mcp_client.py:322-347 | a question sent to the agent classifies again as that same question |
| ChatClient.QuestionsAreQueries | workspace_llm/workspace_llm/chapter07-langgraph/test_mcp_client.py:320-349 | every question the loop sends to the agent is non-empty, stripped, and not a command |
| ChatClient.QuestionsStopAtExit | workspace_llm/workspace_llm/chapter07-langgraph/test_mcp_client.py:328-330 | nothing typed after an exit command reaches the agent |
| ChatClient.ChatLoop | workspace_llm/workspace_llm/chapter07-langgraph/test_mcp_client.py:320-349 | the loop sends the agent exactly the questions among the typed lines, in order, up to the first exit |
| ChatClient.SelectReply | workspace_llm/workspace_llm/chapter07-langgraph/test_mcp_client.py:352-357 | a reply exactly when the result has a non-empty "messages" list; the reply is the last message's content, or its `str()` when it has none |
| ChatClient.ReplyIsNewest | workspace_llm/workspace_llm/chapter07-langgraph/test_mcp_client.py:352-355 | earlier messages never change the reply shown |
| McpService.Query | llmservice/llmservice/mcp_project/mcp_service.py:8-14 | status 400 with body `{"error": "No question provided"}` and no call to the query service exactly when "question" is missing or falsy; otherwise exactly one call, with the question as received, then status 200 with body `{"response": <answer>}` when the service answers and Flask's 500 error page when it raises; every JSON reply is 400 or 200 and has exactly one key, `error` or `response` |
| McpService.RejectionIgnoresService | llmservice/llmservice/mcp_project/mcp_service.py:11-13 | a rejected request makes no call to the query service, and its response is the same whatever the service |
| McpService.ServiceSeesQuestionUnchanged | llmservice/llmservice/mcp_project/mcp_service.py:13-14 | an accepted request makes exactly one call, and its outcome depends on the query service only through what it does with the question as received |
| McpService.NonEmptyQuestionAccepted | llmservice/llmservice/mcp_project/mcp_service.py:10-14 | a non-empty question string is passed to the service once; it gets status 200 and a "response" key holding the answer when the service answers, and the 500 page when it raises |
| McpService.EmptyQuestionRejected | llmservice/llmservice/mcp_project/mcp_service.py:10-12 | an empty body `{}` and an empty question string both get 400 with the fixed error |

## Left out

- Everything delegated to frameworks is left out: the language model, the
  agent and its checkpointed memory, embeddings and vector search, and the
  SQL toolkit. The `/query` route sees `process_query` as a function
  parameter that answers or raises, and the chat loop does not model the
  agent's answers. The content of Flask's 500 page (the interactive
  debugger page under `debug=True`) is not modelled.
- MCP transport is left out: the SSE server startup on 0.0.0.0:8000, tool
  discovery over the network, and `MultiServerMCPClient`. The framework's
  dispatcher (argument validation against the schema, wrapping handler
  exceptions) is framework code, not this code.
- Reading `mcp.json` is left out, including `FileNotFoundError` and
  `JSONDecodeError`. The model starts from the parsed value and covers the
  `.get`, the truthiness test and the failure of the log line's
  `len(servers)`/`servers.keys()` on a truthy non-object; the log text itself
  is not modelled.
- JSON objects with a repeated key are left out: every object the model
  reads is required to have distinct keys (`DistinctKeys`), as a parsed
  Python dict has. Python keeps the last of the repeated values.
- JSON numbers are `int` or `real`. The non-standard `NaN` and `Infinity`
  that Python's parser accepts are left out (`NaN` is truthy in Python).
- Flask's handling of a body that is not a JSON object is left out:
  `Query` receives the parsed dict.
- The floating-point weather fields (coordinates, temperatures, wind speed)
  are left out. The records keep every integer and string field.
- History.Apply models the remove-all marker and appending. It does not
  model the framework reducer's merging of messages by id.
- Logging and printing are left out: the `{i:2d}` tool listing, help text,
  farewell messages and ExceptionGroup diagnostics. The `tools` and `help`
  commands are classified, and their output is not modelled.
- The fixed prompt text around the tool list is left out. The tool list
  inside it is modelled.
- `KeyboardInterrupt` in the chat loop and I/O errors of `write_file` are
  left out. `write_file` writes text; its UTF-8 encoding is not modelled.
- Tools.ResultFile.WriteFile: "holds exactly `content`" is about the text,
  not the bytes. Text mode turns each `\n` into the platform's line
  separator (`\r\n` on Windows). `open(..., 'w')` empties the file before
  writing, so a write that fails part-way leaves it empty rather than
  unchanged, for example on a `UnicodeEncodeError` from a lone surrogate in
  the tool's JSON-decoded argument. The model covers the write that
  succeeds.
- Text.Lower: folds only the ASCII capitals A–Z, while Python's `str.lower()`
  also folds other cased letters. The weather lookup and the command
  classifier compare the result only with ASCII words. The only non-ASCII
  character that lower-cases to a single ASCII letter is KELVIN SIGN (to
  `k`), and none of those words contains `k`. The model's Lower also keeps
  the length, while Python turns U+0130 (İ) into two characters, `i`
  followed by U+0307; such a result contains U+0307, which none of the
  compared words does. So the model gives the same decisions.
- ChatClient.ChatLoop: returns when the typed lines run out. The source has
  no such exit: end of input raises `EOFError` from `input()`, which the
  `except Exception` at line 362 of `test_mcp_client.py` catches and logs,
  and the loop asks again forever. The model covers the lines typed before
  that point.
