# FaaStRuby client core in Dafny

This project models two parts of the FaaStRuby command-line client, a client for a serverless hosting platform.

- **The API client** (`FaaStRuby::API`, module `ApiClient`). Every operation builds one HTTP request: a verb, a URL, a payload and a header set.
  - The management operations target URLs under `host + "/v2"`. They hand what came back to the classifier `parse`, which maps a status code and a JSON body to the record `{response, body, errors, code}` (`Record`). In their `rescue`, an error response with 301, 302 or 307 is followed, and any other code is classified.
  - `run` (function invocation) targets the host directly, with no version segment. It never calls `parse`: a successful response comes back as it is, and so does an error response that is not a redirect.
- **The `remove-from` command** (`FaaStRuby::Command::Function::RemoveFrom`, module `RemoveFromCommand`). It checks its argument list and takes the first argument as the workspace name. It consumes the `-y`/`--yes` flags in a loop, asks for confirmation unless forced, and removes the function.

Supporting modules: `Wrappers` holds `Option`. `Json` holds the parsed JSON value and the Ruby behaviour the classifier relies on: truthiness (`nil` and `false` are false), `value['key']`, and string interpolation.

How the pieces are represented:

- The HTTP library is not modelled. An operation takes, as `exec`, what the library did with its request: it returned a response (`Returned`), or it raised an exception carrying one (`Rejected`).
- Following a redirect is the opaque reply `FollowsRedirect(response)`.
- A response body is given as the JSON library reads it. `None` stands for text that is not JSON.
- Ruby exceptions that escape `parse` are results too: `Raises(ParseError)`, `Raises(NoMethodError)`, `Raises(TypeError)`.
- The configuration the client reads (API host, key and secret) is passed to the `Api` constructor.
- In `remove-from`, `FaaStRuby::CLI.error` ends the process. It is modelled as the status `Exit(messages)`.
- The prompt's reply and the error list that `function.destroy` leaves behind are parameters of `RemoveFrom.Run`.

Four behaviours of the code are easy to misread. The model follows the code in each:

- In every operation, a followed redirect returns the follow-up response itself, not a classified result: `err.response.follow_redirection` is never passed to `parse`.
- The success record's `errors` field is whatever truthy value `body['errors']` holds, not necessarily an array. So `Record.errors` is a `Json`.
- In the 422 list, `body['error']` is appended as the value itself, not as text.
- The workspace-name check `=~ /^-.*/` also matches a dash that follows a newline inside the argument, because Ruby's `^` matches at the start of every line.

URLs are built by plain interpolation, so names are not escaped. `ManagementUrlsDistinct` shows that the endpoints stay apart when names contain no slash. `UnescapedNamesAlias` shows that a name with a slash can reach another endpoint.

## Model

| member | source | states |
|---|---|---|
| `Json.Index` | lib/faastruby/api.rb:141-153 | Ruby's `value['key']`: a hash gives the value, or `nil` when the key is absent; a string gives the key when it contains it, `nil` otherwise; nil and booleans raise NoMethodError, integers and arrays raise TypeError |
| `Json.Truthy` | lib/faastruby/api.rb:149-153 | the tests `if body['error']`, `if body['errors']` and `||`: only `nil` and `false` fail, every string, number, array and hash passes, empty ones included |
| `Json.ToS` | lib/faastruby/api.rb:141-146 | interpolating `body['error']` gives the string itself, nothing for `nil`, `true`/`false` for booleans, the shortest decimal form of a non-negative integer (`0` for zero, no leading zero otherwise), and `-` followed by the shortest digits of a negative one |
| `ApiClient.Error` | lib/faastruby/api.rb:157-159 | the failure record has no response and no body, and carries exactly the given messages and code |
| `ApiClient.Classify` | lib/faastruby/api.rb:133-155 | 500 and 408 give their one fixed message whatever the body, even a body that is not JSON; on another code a body that is not JSON raises and never yields a record; every record keeps the input code; a record has no response exactly when the code ends in an error; an error record has no body and at least one message, exactly one unless the code is 422; a success record carries the original response and its parsed body; outside the error table a JSON body gives a record exactly when it is a hash or a string, and any other body raises |
| `ApiClient.Detailed` | lib/faastruby/api.rb:141-146 | the 401/404/409/402 branch returns a record exactly when the body has `[]` with a string key (a hash or a string), and otherwise raises NoMethodError or TypeError; the record is the failure form with exactly one message: the text followed by the hash's `error` value (nothing when absent), or by `error` when a string body contains it |
| `ApiClient.UnprocessableErrors` | lib/faastruby/api.rb:147-151 | the 422 list always starts with the status line; it is that line alone for a hash with neither key; a body with no string-key `[]` raises, and only NoMethodError or TypeError can escape |
| `ApiClient.DetailedMessage` | lib/faastruby/api.rb:141-146 | 401, 404, 409 and 402 give exactly one message: for a hash body the status text followed by `body['error']`, or by nothing when the key is absent; for a string body the status text followed by `error` when the string contains it; any other body raises |
| `ApiClient.UnprocessableOrder` | lib/faastruby/api.rb:147-151 | for a hash body, 422 lists the status line, then `body['error']` when truthy, then every element of an array `body['errors']`, in that order; a truthy non-array `errors` raises |
| `ApiClient.UnprocessableText` | lib/faastruby/api.rb:147-151 | 422 with a string body: one containing `errors` raises TypeError; otherwise the list is the status line, followed by `error` when the string contains that word |
| `ApiClient.UnprocessableAlone` | lib/faastruby/api.rb:147-151 | 422 with neither key gives exactly the status line |
| `ApiClient.SuccessRecord` | lib/faastruby/api.rb:152-153 | any code outside the error table gives, for a hash body, the original response, the parsed body, `body['errors']` or `[]` when falsy, and the code; for a string body the same with `errors` when the string contains it; an array, number, boolean or `null` body raises |
| `ApiClient.DocumentedSamples` | lib/faastruby/api.rb:133-155 | the sample responses: 422 with `error` and two `errors`, 422 with `{}`, 200 with one soft error, 200 with `{}` |
| `ApiClient.Dispatch` | lib/faastruby/api.rb:22-27 | an error response is followed exactly on 301, 302 and 307, classified otherwise, and returned raw otherwise when the operation does not classify |
| `ApiClient.Respond` | lib/faastruby/api.rb:110-116 | a redirect is followed exactly when the library raised with 301/302/307; a reply is a classified result exactly for a classifying operation that got no redirect, and then it is `parse` of that response; raw replies are the response unchanged |
| `ApiClient.PathAppend` | lib/faastruby/api.rb:31 | joining two segment lists joins their paths |
| `ApiClient.PathInjective` | lib/faastruby/api.rb:86 | slash-free segments are recovered from the path they form |
| `ApiClient.ManagementUrlsDistinct` | lib/faastruby/api.rb:31-86 | for slash-free names the workspace, credentials, deploy and function URLs never coincide, and the workspace and function names can be read back |
| `ApiClient.UnescapedNamesAlias` | lib/faastruby/api.rb:48-60 | the info URL of workspace `team/credentials` is the credentials URL of workspace `team` |
| `ApiClient.ApiUrl` | lib/faastruby/api.rb:8 | `api_url` is the host followed by the single segment `v2` |
| `ApiClient.WorkspacesUrl` | lib/faastruby/api.rb:16 | the workspace collection is the segment `workspaces` under `api_url` |
| `ApiClient.WorkspaceUrl` | lib/faastruby/api.rb:31 | a workspace is the segments `workspaces`, name under `api_url` |
| `ApiClient.CredentialsUrl` | lib/faastruby/api.rb:60 | the credentials endpoint is the segments `workspaces`, name, `credentials` |
| `ApiClient.DeployUrl` | lib/faastruby/api.rb:73 | the deploy endpoint is the segments `workspaces`, name, `deploy` |
| `ApiClient.FunctionUrl` | lib/faastruby/api.rb:86 | a function is the segments `workspaces`, workspace, `functions`, function |
| `ApiClient.RunUrl` | lib/faastruby/api.rb:103 | the invocation URL is the workspace and function segments directly under the host, with no version segment, followed by the query verbatim (nothing for `nil`) |
| `ApiClient.HeaderSets` | lib/faastruby/api.rb:9-10 | the combined headers hold both credentials unchanged plus exactly the content headers, which the credentials alone lack |
| `ApiClient.Api.constructor` | lib/faastruby/api.rb:7-13 | the client derives `api_url`, the credential headers and the combined headers from the configuration it is given |
| `ApiClient.Api.Parse` | lib/faastruby/api.rb:133-155 | the step-by-step classifier computes exactly `Classify` |
| `ApiClient.Api.Receive` | lib/faastruby/api.rb:20-27 | every operation's tail (parse, or rescue) replies exactly `Respond` |
| `ApiClient.Api.CreateWorkspace` | lib/faastruby/api.rb:15-28 | POST to `v2/workspaces` with the combined headers; the payload always has `name`, and has `email`/`provider` exactly when given, with their values; the reply is classified |
| `ApiClient.Api.DestroyWorkspace` | lib/faastruby/api.rb:30-40 | DELETE `v2/workspaces/{ws}`, no payload, combined headers, classified reply |
| `ApiClient.Api.GetWorkspaceInfo` | lib/faastruby/api.rb:47-57 | GET `v2/workspaces/{ws}`, no payload, combined headers, classified reply |
| `ApiClient.Api.RefreshCredentials` | lib/faastruby/api.rb:59-70 | PUT `v2/workspaces/{ws}/credentials` with an empty form and only the two credential headers, classified reply |
| `ApiClient.Api.Deploy` | lib/faastruby/api.rb:72-83 | POST `v2/workspaces/{ws}/deploy` uploading the package file as field `package`, only the credential headers, classified reply |
| `ApiClient.Api.DeleteFromWorkspace` | lib/faastruby/api.rb:85-95 | DELETE `v2/workspaces/{ws}/functions/{fn}`, no payload, combined headers, classified reply |
| `ApiClient.Api.UpdateFunctionContext` | lib/faastruby/api.rb:119-131 | PATCH the function URL with the string payload JSON-encoded once more, combined headers, classified reply |
| `ApiClient.Api.Run` | lib/faastruby/api.rb:102-117 | the caller's header hash gains `Benchmark => true` exactly when `time` is set, and is what is sent; "get" sends no payload, any other verb the payload verbatim; the reply is never classified |
| `RemoveFromCommand.Help` | lib/faastruby/cli/commands/function/remove_from.rb:30-32 | the synopsis is `remove-from WORKSPACE_NAME [-y, --yes]` |
| `RemoveFromCommand.Usage` | lib/faastruby/cli/commands/function/remove_from.rb:34-36 | the usage line is `Usage: faastruby remove-from WORKSPACE_NAME [-y, --yes]` |
| `RemoveFromCommand.LineStartsWithDash` | lib/faastruby/cli/commands/function/remove_from.rb:65 | the match of `^-.*`: every argument with a leading dash matches, and an argument without a dash never matches |
| `RemoveFromCommand.DashedNames` | lib/faastruby/cli/commands/function/remove_from.rb:65 | a leading dash is refused as a workspace name, a name without a dash never is, and a dash after a newline is refused too |
| `RemoveFromCommand.Chomp` | lib/faastruby/cli/commands/function/remove_from.rb:44 | the reply loses exactly one trailing `\r\n`, `\n` or `\r`, and nothing when it has none |
| `RemoveFromCommand.ConfirmingReplies` | lib/faastruby/cli/commands/function/remove_from.rb:44 | `y`, `y` with `\n` and `y` with `\r\n` all become exactly `y`, which confirms |
| `RemoveFromCommand.CancellingReplies` | lib/faastruby/cli/commands/function/remove_from.rb:17-18 | `Y`, `yes`, an empty line and `y` plus a blank line become something other than `y`, so they cancel |
| `RemoveFromCommand.ConsumeOptions` | lib/faastruby/cli/commands/function/remove_from.rb:47-58 | the `parse_options` loop, one argument per step: an accepted result only adds `force`, keeps every other option, and has `force` = `y` once any argument was consumed; an abort happens only on a non-empty list and carries exactly two messages, the second the usage line |
| `RemoveFromCommand.FlagsOnly` | lib/faastruby/cli/commands/function/remove_from.rb:47-58 | arguments that are all `-y`/`--yes` are accepted, and set `force` to `y` exactly when there is at least one |
| `RemoveFromCommand.FirstUnknownAborts` | lib/faastruby/cli/commands/function/remove_from.rb:54-55 | the first argument that is not a flag aborts with `Unknown argument: <it>` and the usage line, whatever follows |
| `RemoveFromCommand.YesFlagIdempotent` | lib/faastruby/cli/commands/function/remove_from.rb:52-53 | repeating a flag changes nothing |
| `RemoveFromCommand.RemoveFrom.MissingArgs` | lib/faastruby/cli/commands/function/remove_from.rb:60-67 | an empty list records exactly the missing-name message and the usage line; a first argument matching `^-` exits with the invalid-name message and the usage line |
| `RemoveFromCommand.RemoveFrom.ParseOptions` | lib/faastruby/cli/commands/function/remove_from.rb:47-58 | the loop consumes every argument and ends exactly as `ConsumeOptions` from empty options does, leaving `args` empty when accepted |
| `RemoveFromCommand.RemoveFrom.Initialize` | lib/faastruby/cli/commands/function/remove_from.rb:5-14 | no arguments exits with the two messages; a dashed first argument exits before any workspace name is taken; otherwise the workspace is the first argument, the function name comes from the configuration, and the rest are consumed as flags |
| `RemoveFromCommand.RemoveFrom.Run` | lib/faastruby/cli/commands/function/remove_from.rb:16-28 | without `force`, the chomped reply becomes `force`; removal happens exactly when `force` is `y`, otherwise `Cancelled`; destroy errors exit with those errors, none gives `Done!` |

## Left out

- The HTTP request: `RestClient::Request.execute` and `follow_redirection` are network I/O inside a foreign library. The response is the input `exec`, and following a redirect is an opaque reply. Transport failures that are not error responses are not modelled.
- Response text: a response carries only its parsed body, so the raw body text that callers of `run` read from a non-JSON reply is not represented. Such a reply keeps `None` as its body.
- JSON text: `Oj.load` and `Oj.dump` are a foreign library. Bodies are given already parsed, and JSON payloads are given as the value to encode. Echoing the body text with `puts` before re-raising a parse error is not modelled.
- Floating-point JSON numbers are not modelled.
- Json.ToS: interpolating an array or hash `error` value shows it with Ruby's `inspect` text. That text depends on string escaping and on hash insertion order, which a Dafny map does not keep. The model renders these values as the placeholders `[...]` and `{...}`.
- The deploy package is a file path. Opening the file is file I/O.
- The disabled request timeout (`@timeout = nil`) has no observable logic.
- The global configuration `FaaStRuby.api_host`, `api_key` and `api_secret` is passed to the `Api` constructor. `run` reads the host when it is called; the model uses the host given at construction.
- `method.to_sym` in `run` keeps the verb as the caller's string.
- `update_workspace` and `list_workspace_functions` are commented out in the source, so they are not modelled.
- The console: `STDIN.gets`, `print`/`puts`, spinners and colours. Strings carry no colour codes. The prompt reply is a parameter, and end of input (a `nil` reply) is not modelled.
- `load_yaml`, `Credentials.load_for`, `FunctionBaseCommand`, and the `Workspace`/`Function` objects with `function.destroy` are not part of this model. The function name from the project configuration and the destroy error list are parameters.
- `@args.shift` also shortens the caller's own argument array. The model keeps `args` as a value, so that aliasing is not captured.
