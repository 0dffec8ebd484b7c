# pybis and the Jupyter plugins of openBIS, modelled in Dafny

This project models the self-contained logic of the early pybis repository.

- **Credentials and the credential store** of the Python client.
  - `OpenbisCredentials` is a value with an optional token and an optional (username, password) pair.
  - `OpenbisCredentialStore` caches a token in the file `bis_token.txt` inside a store folder.
  - The file system is a `Disk` value: a map from file paths to contents, plus a set of directories. A `FileSystem` object holds it. The store's `read` and `write` are methods proved against the pure functions `ReadToken` and `WriteToken`.
- **The guards of `Openbis.login` and `Openbis.is_token_valid`.** Both methods are stubs behind their guard.
- **The JupyterHub authenticator** (`OpenbisAuthenticator`):
  - the default port;
  - the username pattern `^[a-z][.a-z0-9_-]*$` under Python's `re.match`, where `$` also matches before a final newline;
  - the check that rejects a missing or blank password (Python 3 `str.strip`);
  - the order of these guards before the server is contacted.
- **The dataset-uploader dropbox** (`dataset-uploader-api.py`):
  - splitting a session token into a username and a session id;
  - splitting a `/SPACE/CODE` sample identifier;
  - the "exactly one search hit" rule;
  - the mandatory-parameter checks;
  - the rule that stores an empty property value as `None`;
  - registering the container, result and notebook data sets and linking them;
  - the status table.

  The platform is a `Transaction` object. It holds the answers of the search service, the codes it gives new data sets, the data sets created in the transaction, and a ghost log of the platform calls. The setters applied to a data set created in the transaction (sample, parents, properties) show only in the created data sets, not in the log. The log records the searches, making the sample mutable, each data-set creation, the property changes of a data set found by name, and the file preparation, move and deletions.
- **The master-data script** (`initialize-master-data.py`):
  - the `propertiesCache` memoisation of property types;
  - the flags that `addProperty` sets on each property assignment;
  - `addProperties`, `createDataSetTypeWithProperties` and `initJupyterMasterData`.

  The registration transaction is a `MasterDataTransaction` object holding data set types, property types and assignments.

`OpenbisCredentials` appears in two files with the same behaviour (they differ only in layout and blank lines), src/python/pybis/pybis.py and src/python/PyBis/pybis/pybis.py. The module `Credentials` models both.

Files:
- `wrappers.dfy`: `Option`, `Result`, `Outcome`.
- `credentials.dfy`: the credentials value.
- `token_store.dfy`: the store and the file system.
- `openbis.dfy`: the two guards.
- `authenticator.dfy`: the authenticator.
- `uploader_parsing.dfy`: the dropbox's pure helpers.
- `uploader.dfy`: the dropbox itself.
- `master_data.dfy`: the master-data script.

## Model

| member | source | states |
|---|---|---|
| Credentials.EmptyCredentials | src/python/pybis/pybis.py:17-23 | default construction has neither a token nor a username/password pair |
| Credentials.ConstructorKeepsFields | src/python/pybis/pybis.py:17-29 | the constructor stores both arguments unchanged; `has_token` holds exactly when the token is not None, `has_username_and_password` exactly when the pair is not None, each independent of the other field |
| Credentials.AccessorsRoundTrip | src/python/pybis/pybis.py:31-37 | `username` and `password` return the first and second components of the pair given to the constructor |
| Credentials.HasToken | src/python/pybis/pybis.py:25-26 | `has_token()`; its meaning is stated by `ConstructorKeepsFields` and `EmptyCredentials` |
| Credentials.HasUsernameAndPassword | src/python/pybis/pybis.py:28-29 | `has_username_and_password()`; its meaning is stated by `ConstructorKeepsFields` and `EmptyCredentials` |
| Credentials.Username | src/python/pybis/pybis.py:31-33 | the `username` property, defined only when the pair is present; stated by `AccessorsRoundTrip` |
| Credentials.Password | src/python/pybis/pybis.py:35-37 | the `password` property, defined only when the pair is present; stated by `AccessorsRoundTrip` |
| TokenStore.JoinPath | src/python/PyBis/pybis/pybis.py:52-54 | `os.path.join(folder, name)` starts with the folder and ends with the name, with one `/` inserted exactly when the folder is non-empty and does not end with `/` |
| TokenStore.TokenPathIsInsideFolder | src/python/PyBis/pybis/pybis.py:52-54 | the token path extends the store folder and is never the folder itself |
| TokenStore.TokenPath | src/python/PyBis/pybis/pybis.py:52-54 | the token file `bis_token.txt` joined to the store folder; stated by `JoinPath` and `TokenPathIsInsideFolder` |
| TokenStore.CredentialStore.StorePath | src/python/PyBis/pybis/pybis.py:52-54 | `store_path()` of a store is `TokenPath` of its folder |
| TokenStore.ReadToken | src/python/PyBis/pybis/pybis.py:56-64 | a missing file gives empty credentials; a directory at the path raises; otherwise the token is the whole file contents and there is no username/password pair |
| TokenStore.WriteToken | src/python/PyBis/pybis/pybis.py:66-76 | credentials without a token change nothing; otherwise the folder is created when missing and the token file overwritten; it fails exactly when the folder is the empty path and missing, or the token path is a directory; no file other than the token file is touched; a failure changes no file, and leaves the folders as they were except that a missing folder was created when the token path turned out to be a directory |
| TokenStore.WriteKeepsWellFormed | src/python/PyBis/pybis/pybis.py:66-76 | a write never makes a path both a file and a directory |
| TokenStore.WriteThenRead | src/python/PyBis/pybis/pybis.py:56-76 | after a successful write, read returns the written token and no username/password pair |
| TokenStore.LastWriteWins | src/python/PyBis/pybis/pybis.py:66-76 | after two successful writes, read returns the second token |
| TokenStore.WriteCreatesFolderAndFile | src/python/PyBis/pybis/pybis.py:73-76 | after a successful write the store folder exists and the token file is a regular file |
| TokenStore.FileSystem.constructor | src/python/PyBis/pybis/pybis.py:60-76 | the file system starts with the given disk |
| TokenStore.FileSystem.MakeDirs | src/python/PyBis/pybis/pybis.py:73-74 | `os.makedirs` raises for the empty path and for an existing path, and otherwise adds the directory |
| TokenStore.FileSystem.ReadFile | src/python/PyBis/pybis/pybis.py:62-63 | reading returns the file contents; it raises for a directory or a missing file |
| TokenStore.FileSystem.WriteFile | src/python/PyBis/pybis/pybis.py:75-76 | writing creates or truncates the file, and raises for a directory |
| TokenStore.CredentialStore.constructor | src/python/PyBis/pybis/pybis.py:45-50 | the store keeps its folder |
| TokenStore.CredentialStore.Read | src/python/PyBis/pybis/pybis.py:56-64 | `read()` returns what `ReadToken` states for the current disk |
| TokenStore.CredentialStore.Write | src/python/PyBis/pybis/pybis.py:66-76 | `write()` leaves exactly the disk and outcome that `WriteToken` states |
| TokenStore.CredentialsStoreScenario | src/python/pybis/pybis_test.py:16-22 | writing "magic_token" into an existing folder and reading it back gives the same token and no username/password pair |
| Openbis.Login | src/python/PyBis/pybis/pybis.py:90-97 | as written, `login()` never raises: the guard tests the bound method, which is always true |
| Openbis.LoginAcceptsMissingPair | src/python/PyBis/pybis/pybis.py:96-97 | even credentials without a pair pass the guard |
| Openbis.LoginAsIntended | src/python/PyBis/pybis/pybis.py:90-97 | with the method called, `login()` raises the ValueError exactly when there is no username/password pair |
| Openbis.IsTokenValid | src/python/PyBis/pybis/pybis.py:100-108 | `is_token_valid()` is False without a token, and None (the stub falls off its end) with one; it is never True |
| Authenticator.ServerPortDefaults | src/python/JupyterBis/jupyterbis/auth.py:31-41 | an unset port is 443 with SSL and 80 without; SSL is on by default; a configured port is used as given |
| Authenticator.ServerPortDefault | src/python/JupyterBis/jupyterbis/auth.py:31-35 | `_server_port_default()`; stated by `ServerPortDefaults` |
| Authenticator.ServerPort | src/python/JupyterBis/jupyterbis/auth.py:26-35 | the configured port or else its default; stated by `ServerPortDefaults` |
| Authenticator.OpenbisAddress | src/python/JupyterBis/jupyterbis/auth.py:66 | `server_address + ":" + str(server_port)`, the address `Authenticate` contacts |
| Authenticator.TailRunEnd | src/python/JupyterBis/jupyterbis/auth.py:43-44 | the greedy `[.a-z0-9_-]*` run stops at the first character outside the class |
| Authenticator.MatchesUsernamePatternIff | src/python/JupyterBis/jupyterbis/auth.py:43-44 | the pattern accepts exactly a lowercase letter followed by characters of `[.a-z0-9_-]`, optionally followed by one final newline |
| Authenticator.MatchesUsernamePattern | src/python/JupyterBis/jupyterbis/auth.py:43-44 | `re.match` of the default pattern, scanning as the regex engine does; stated by `MatchesUsernamePatternIff` |
| Authenticator.StripLeft | src/python/JupyterBis/jupyterbis/auth.py:62 | `lstrip` removes exactly the leading whitespace |
| Authenticator.StripRight | src/python/JupyterBis/jupyterbis/auth.py:62 | `rstrip` removes exactly the trailing whitespace |
| Authenticator.StripAllSpace | src/python/JupyterBis/jupyterbis/auth.py:62 | an all-whitespace string strips to nothing |
| Authenticator.StripKeepsNonSpace | src/python/JupyterBis/jupyterbis/auth.py:62 | a string with a non-whitespace character does not strip to nothing |
| Authenticator.StripEmptyIff | src/python/JupyterBis/jupyterbis/auth.py:62 | `s.strip() == ''` exactly when every character of `s` is whitespace |
| Authenticator.Strip | src/python/JupyterBis/jupyterbis/auth.py:62 | `str.strip()`; stated by `StripLeft`, `StripRight` and `StripEmptyIff` |
| Authenticator.BlankPasswordIff | src/python/JupyterBis/jupyterbis/auth.py:62-64 | the password guard holds exactly for a missing, empty or whitespace-only password |
| Authenticator.IsBlankPassword | src/python/JupyterBis/jupyterbis/auth.py:62 | the password guard's condition; stated by `BlankPasswordIff` |
| Authenticator.Authenticate | src/python/JupyterBis/jupyterbis/auth.py:50-73 | an invalid username is rejected first, then a blank password, neither contacting openBIS; openBIS is contacted at `address:port` exactly when both guards pass; the result is then the input username unchanged, or an exception exactly when the external `Openbis(...)` call raises |
| UploaderParsing.PropertyValueOf | src/core-plugins/jupyter-api/1/dss/reporting-plugins/jupyter-uploader-api/dataset-uploader-api.py:164-166 | the stored value is None exactly when `unicode(v)` is empty, and otherwise is `unicode(v)` |
| UploaderParsing.PropertyValueCases | src/core-plugins/jupyter-api/1/dss/reporting-plugins/jupyter-uploader-api/dataset-uploader-api.py:164-166 | a missing parameter is stored as the text "None", the empty text as None, any other text as itself |
| UploaderParsing.TakeUntil | src/core-plugins/jupyter-api/1/dss/reporting-plugins/jupyter-uploader-api/dataset-uploader-api.py:81 | the longest prefix without a given character, as `.` and `[^-]` scan |
| UploaderParsing.LastIndexOf | src/core-plugins/jupyter-api/1/dss/reporting-plugins/jupyter-uploader-api/dataset-uploader-api.py:81 | the position of the last occurrence of a character, None exactly when it does not occur |
| UploaderParsing.UsernameSessionId | src/core-plugins/jupyter-api/1/dss/reporting-plugins/jupyter-uploader-api/dataset-uploader-api.py:78-83 | the split fails exactly when the first line has no dash; otherwise the username is the token up to a dash that is the last dash of the first line (no newline in the username, no dash between it and the end of the first line), and the session id is the longest dash-free run after that dash, ending at the next dash or at the end of the token |
| UploaderParsing.SplitAtLastDash | src/core-plugins/jupyter-api/1/dss/reporting-plugins/jupyter-uploader-api/dataset-uploader-api.py:78-83 | for a token with no newline before its last dash: it fails exactly without a dash, and otherwise username + "-" + session id is the whole token and the session id has no dash |
| UploaderParsing.UsernameAtLastDash | src/core-plugins/jupyter-api/1/dss/reporting-plugins/jupyter-uploader-api/dataset-uploader-api.py:78-83 | with the last dash at position k and no newline before it, the username is the token before k and the session id the token after k |
| UploaderParsing.SplitKeepsEarlierDashes | src/core-plugins/jupyter-api/1/dss/reporting-plugins/jupyter-uploader-api/dataset-uploader-api.py:79-81 | "a-b-c" splits into "a-b" and "c": the username keeps its dashes |
| UploaderParsing.SplitKeepsFinalNewline | src/core-plugins/jupyter-api/1/dss/reporting-plugins/jupyter-uploader-api/dataset-uploader-api.py:81 | "u-a\n" splits into "u" and "a\n": a final newline stays in the session id |
| UploaderParsing.SplitStopsAtFirstLine | src/core-plugins/jupyter-api/1/dss/reporting-plugins/jupyter-uploader-api/dataset-uploader-api.py:81 | "a-b\nc-d" splits into "a" and "b\nc": `.` does not cross the newline |
| UploaderParsing.Split | src/core-plugins/jupyter-api/1/dss/reporting-plugins/jupyter-uploader-api/dataset-uploader-api.py:38-39 | `split("/")` gives at least one field, no field contains the separator, and joining the fields gives the string back |
| UploaderParsing.SplitOfJoin | src/core-plugins/jupyter-api/1/dss/reporting-plugins/jupyter-uploader-api/dataset-uploader-api.py:38-39 | splitting joined separator-free fields gives the fields back |
| UploaderParsing.SplitCount | src/core-plugins/jupyter-api/1/dss/reporting-plugins/jupyter-uploader-api/dataset-uploader-api.py:38-39 | a string has one more field than separators |
| UploaderParsing.SpaceAndCodeOfFields | src/core-plugins/jupyter-api/1/dss/reporting-plugins/jupyter-uploader-api/dataset-uploader-api.py:38-39 | the space and code are the second and third fields, whatever follows |
| UploaderParsing.SpaceAndCodeOfPath | src/core-plugins/jupyter-api/1/dss/reporting-plugins/jupyter-uploader-api/dataset-uploader-api.py:38-39 | "/S/C" gives space S and code C |
| UploaderParsing.SpaceAndCodeFailsIff | src/core-plugins/jupyter-api/1/dss/reporting-plugins/jupyter-uploader-api/dataset-uploader-api.py:38-39 | the identifier raises IndexError exactly when it has fewer than two slashes |
| UploaderParsing.SpaceAndCode | src/core-plugins/jupyter-api/1/dss/reporting-plugins/jupyter-uploader-api/dataset-uploader-api.py:38-39 | the second and third fields of `identifier.split("/")`, None for the IndexError; stated by `SpaceAndCodeOfFields`, `SpaceAndCodeOfPath` and `SpaceAndCodeFailsIff` |
| UploaderParsing.ExactlyOne | src/core-plugins/jupyter-api/1/dss/reporting-plugins/jupyter-uploader-api/dataset-uploader-api.py:60-64 | a hit is returned exactly when the search found one, and it is that one |
| DatasetUploader.Transaction.constructor | src/core-plugins/jupyter-api/1/dss/reporting-plugins/jupyter-uploader-api/dataset-uploader-api.py:86 | the transaction starts with no data set created and no call made |
| DatasetUploader.Transaction.SearchForSamples | src/core-plugins/jupyter-api/1/dss/reporting-plugins/jupyter-uploader-api/dataset-uploader-api.py:46-47 | the sample search answers with the search service's hits and logs the call |
| DatasetUploader.Transaction.SearchForDataSets | src/core-plugins/jupyter-api/1/dss/reporting-plugins/jupyter-uploader-api/dataset-uploader-api.py:56-60 | the data set search answers with the search service's hits and logs the call |
| DatasetUploader.Transaction.MakeSampleMutable | src/core-plugins/jupyter-api/1/dss/reporting-plugins/jupyter-uploader-api/dataset-uploader-api.py:49 | the mutable sample is the sample found |
| DatasetUploader.Transaction.CreateNewDataSet | src/core-plugins/jupyter-api/1/dss/reporting-plugins/jupyter-uploader-api/dataset-uploader-api.py:157 | a new data set of the type is appended, with the platform's next code and nothing set |
| DatasetUploader.Transaction.SetSample | src/core-plugins/jupyter-api/1/dss/reporting-plugins/jupyter-uploader-api/dataset-uploader-api.py:158 | only the data set's sample changes |
| DatasetUploader.Transaction.SetParentDatasets | src/core-plugins/jupyter-api/1/dss/reporting-plugins/jupyter-uploader-api/dataset-uploader-api.py:159 | only the data set's parents change |
| DatasetUploader.Transaction.SetPropertyValue | src/core-plugins/jupyter-api/1/dss/reporting-plugins/jupyter-uploader-api/dataset-uploader-api.py:167 | a created data set gets the property; for a found one the call is passed to the platform |
| DatasetUploader.Transaction.PrepareFiles | src/core-plugins/jupyter-api/1/dss/reporting-plugins/jupyter-uploader-api/dataset-uploader-api.py:184 | the file preparation is logged; it yields the directory the outside step returns, or fails when that step raises |
| DatasetUploader.Transaction.MoveFile | src/core-plugins/jupyter-api/1/dss/reporting-plugins/jupyter-uploader-api/dataset-uploader-api.py:190 | the move is logged |
| DatasetUploader.Transaction.DeleteSessionWorkspaceFile | src/core-plugins/jupyter-api/1/dss/reporting-plugins/jupyter-uploader-api/dataset-uploader-api.py:195 | the deletion is logged |
| DatasetUploader.TableBuilder.constructor | src/core-plugins/jupyter-api/1/dss/reporting-plugins/jupyter-uploader-api/dataset-uploader-api.py:86 | the table starts empty |
| DatasetUploader.TableBuilder.AddHeader | src/core-plugins/jupyter-api/1/dss/reporting-plugins/jupyter-uploader-api/dataset-uploader-api.py:124-126 | a header is appended |
| DatasetUploader.TableBuilder.AddRow | src/core-plugins/jupyter-api/1/dss/reporting-plugins/jupyter-uploader-api/dataset-uploader-api.py:127 | an empty row is appended and its position returned |
| DatasetUploader.TableBuilder.SetCell | src/core-plugins/jupyter-api/1/dss/reporting-plugins/jupyter-uploader-api/dataset-uploader-api.py:128-130 | only the one cell changes |
| DatasetUploader.FirstMissing | src/core-plugins/jupyter-api/1/dss/reporting-plugins/jupyter-uploader-api/dataset-uploader-api.py:89-91 | the position of the first missing parameter, None exactly when all are present |
| DatasetUploader.CheckMandatory | src/core-plugins/jupyter-api/1/dss/reporting-plugins/jupyter-uploader-api/dataset-uploader-api.py:89-91 | the loop passes when all of sample, container, sessionToken are present, and otherwise raises naming the first missing one |
| DatasetUploader.MandatoryOrder | src/core-plugins/jupyter-api/1/dss/reporting-plugins/jupyter-uploader-api/dataset-uploader-api.py:89-91 | a missing sample is reported before a missing container, which is reported before a missing session token; each with the message "mandatory parameter <name> is missing" |
| DatasetUploader.MissingAt | src/core-plugins/jupyter-api/1/dss/reporting-plugins/jupyter-uploader-api/dataset-uploader-api.py:89-91 | when the k-th of sample, container, sessionToken is the first one missing, the checks fail with the message naming it |
| DatasetUploader.Precheck | src/core-plugins/jupyter-api/1/dss/reporting-plugins/jupyter-uploader-api/dataset-uploader-api.py:89-110 | the checks before any lookup, in order: missing parameters, a token that does not unpack (TypeError), a sample that is not a map, a missing identifier (its own message) |
| DatasetUploader.PrecheckSucceedsIff | src/core-plugins/jupyter-api/1/dss/reporting-plugins/jupyter-uploader-api/dataset-uploader-api.py:89-110 | the checks pass exactly when there is a container, a token with a dash in its first line, and a sample map whose identifier is a string |
| DatasetUploader.CheckRequest | src/core-plugins/jupyter-api/1/dss/reporting-plugins/jupyter-uploader-api/dataset-uploader-api.py:89-110 | the step-by-step checks agree with `Precheck` |
| DatasetUploader.GetSampleByIdentifier | src/core-plugins/jupyter-api/1/dss/reporting-plugins/jupyter-uploader-api/dataset-uploader-api.py:37-51 | IndexError before any search for fewer than three fields; otherwise a search on space and code (all clauses), returning the one hit made mutable, or raising "<identifier>Not found by search service." |
| DatasetUploader.GetDataSetForName | src/core-plugins/jupyter-api/1/dss/reporting-plugins/jupyter-uploader-api/dataset-uploader-api.py:54-64 | the one data set whose NAME property matches, or None for zero or several hits |
| DatasetUploader.GetDataSetForPermId | src/core-plugins/jupyter-api/1/dss/reporting-plugins/jupyter-uploader-api/dataset-uploader-api.py:66-76 | the one data set whose code matches, or None for zero or several hits |
| DatasetUploader.ContainerPropertyQuirk | src/core-plugins/jupyter-api/1/dss/reporting-plugins/jupyter-uploader-api/dataset-uploader-api.py:163-167 | a container key is stored with the top-level parameter of that name: "None" when there is none, None for the empty string |
| DatasetUploader.ContainerProperties | src/core-plugins/jupyter-api/1/dss/reporting-plugins/jupyter-uploader-api/dataset-uploader-api.py:163-167 | one property per key of the container map, valued from the top-level parameter of that name; stated by `ContainerPropertyQuirk` |
| DatasetUploader.ParentCodes | src/core-plugins/jupyter-api/1/dss/reporting-plugins/jupyter-uploader-api/dataset-uploader-api.py:159 | the `parents` parameter as `setParentDatasets` receives it: None, or the list of codes; used in `RegisterContainer`'s and `RegistersAll`'s contracts |
| DatasetUploader.SetPropertiesOfCreated | src/core-plugins/jupyter-api/1/dss/reporting-plugins/jupyter-uploader-api/dataset-uploader-api.py:163-167 | a new container gets one property per key of the container map |
| DatasetUploader.SetPropertiesOfFound | src/core-plugins/jupyter-api/1/dss/reporting-plugins/jupyter-uploader-api/dataset-uploader-api.py:163-167 | a found container gets one set-property call per key, each key once |
| DatasetUploader.RegisterContainer | src/core-plugins/jupyter-api/1/dss/reporting-plugins/jupyter-uploader-api/dataset-uploader-api.py:151-169 | a container that is not a map raises AttributeError before any call; otherwise it fails exactly as `ContainerError` states (TypeError for parents that are not a list, when a container has to be created). Its calls are those `LogsContainer` states: the search for the name, then one property set per key on the one data set found, or the creation of a JUPYTER_CONTAINER. On success the data set found is returned; otherwise the new container of the sample, with the given parents and the container properties, is the only data set added (`CreatesContainer`) |
| DatasetUploader.FileNames | src/core-plugins/jupyter-api/1/dss/reporting-plugins/jupyter-uploader-api/dataset-uploader-api.py:181-195 | the names the loops iterate: the list's strings, or a single string's characters; None raises TypeError |
| DatasetUploader.RegisterResultFiles | src/core-plugins/jupyter-api/1/dss/reporting-plugins/jupyter-uploader-api/dataset-uploader-api.py:171-197 | a JUPYTER_RESULT data set of the sample with parents exactly [container code]; the file names are prepared, and if that does not raise, the prepared directory is moved into it and each file is deleted from the session workspace, in order |
| DatasetUploader.RegisterNotebook | src/core-plugins/jupyter-api/1/dss/reporting-plugins/jupyter-uploader-api/dataset-uploader-api.py:229-242 | a JUPYTER_NOTEBOOK data set of the sample with parents exactly [container code] |
| DatasetUploader.RegisterDataSets | src/core-plugins/jupyter-api/1/dss/reporting-plugins/jupyter-uploader-api/dataset-uploader-api.py:115-117 | it fails exactly when `RegistrationError` names a failure, and with that failure: a container that is not a map (AttributeError); parents that are not a list when no container is found by name (TypeError); then the result and notebook failures of `RegisterResultAndNotebook`. On success the returned code is the container's (the one found by name, or the new one), the data sets created are exactly those `RegistersAll` states, and the log is the one `LogsRegistration` states |
| DatasetUploader.RegistrationSucceeded | src/core-plugins/jupyter-api/1/dss/reporting-plugins/jupyter-uploader-api/dataset-uploader-api.py:115-117 | a successful container registration followed by a successful result and notebook registration leaves exactly the data sets `RegistersAll` states and makes exactly the calls `LogsRegistration` states |
| DatasetUploader.RegisterResultAndNotebook | src/core-plugins/jupyter-api/1/dss/reporting-plugins/jupyter-uploader-api/dataset-uploader-api.py:116-117 | the result step runs first and the notebook step only when it passes: exactly one JUPYTER_RESULT is created, and the JUPYTER_NOTEBOOK too unless the result step failed, each with the container as only parent; it fails exactly when `ResultNotebookError` names a failure (result not a map, file names that cannot be iterated, the preparation raising, notebook not a map, notebook file names that cannot be iterated), with that failure; on success the log gains exactly the calls `ResultAndNotebookCalls` lists |
| DatasetUploader.ResultAndNotebookCalls | src/core-plugins/jupyter-api/1/dss/reporting-plugins/jupyter-uploader-api/dataset-uploader-api.py:177-233 | the platform calls of the result and notebook steps, in order: create JUPYTER_RESULT, prepare the files into "results", move the prepared directory into the result, one session-workspace deletion per file name, create JUPYTER_NOTEBOOK; so four calls more than there are file names |
| DatasetUploader.ExistingContainer | src/core-plugins/jupyter-api/1/dss/reporting-plugins/jupyter-uploader-api/dataset-uploader-api.py:154 | the container reused is the one hit of the search for the container's name (`GetDataSetForName` states the search) |
| DatasetUploader.RegistersAll | src/core-plugins/jupyter-api/1/dss/reporting-plugins/jupyter-uploader-api/dataset-uploader-api.py:151-242 | what the registrations leave behind: the old data sets unchanged; a new JUPYTER_CONTAINER of the sample with the given parents and the container properties exactly when none was found by name; then a JUPYTER_RESULT and a JUPYTER_NOTEBOOK of the sample whose only parent is the container; so two or three data sets in all (used by the contracts of `RegisterDataSets` and `Process`) |
| DatasetUploader.ReportSuccess | src/core-plugins/jupyter-api/1/dss/reporting-plugins/jupyter-uploader-api/dataset-uploader-api.py:122-130 | headers STATUS, MESSAGE, RESULT and one row OK / "Dataset registration successful" / None |
| DatasetUploader.Process | src/core-plugins/jupyter-api/1/dss/reporting-plugins/jupyter-uploader-api/dataset-uploader-api.py:86-138 | it fails exactly when `ProcessError` names a failure, and with that failure: the checks of `Precheck`, an identifier with fewer than three fields (IndexError), a sample search without exactly one hit ("<identifier>Not found by search service."), then the failures of `RegisterDataSets`. A failing check leaves the platform untouched; any failure leaves the table untouched. On success the sample was the one hit, the data sets created are exactly those `RegistersAll` states for that sample with `containerCode` the container's code, the log is the sample search, making the sample mutable, then the calls `LogsRegistration` states, and the table holds the OK row (the FAIL branch is unreachable) |
| MasterData.FirstWithCode | src/core-plugins/jupyter-api/1/as/initialize-master-data.py:70 | a position it returns lies in the list and holds a type with the code (the lookup of `getOrCreate`); `FirstWithCodeIsFirst` states which position |
| MasterData.FirstWithCodeIsFirst | src/core-plugins/jupyter-api/1/as/initialize-master-data.py:70 | the lookup finds nothing exactly when no type has the code, and otherwise finds the first type that has it: no earlier type has the code |
| MasterData.MasterDataTransaction.constructor | src/core-plugins/jupyter-api/1/as/initialize-master-data.py:31 | the transaction starts from the known types and no assignment |
| MasterData.MasterDataTransaction.GetOrCreateNewDataSetType | src/core-plugins/jupyter-api/1/as/initialize-master-data.py:39 | the existing data set type with the code, or a new one appended |
| MasterData.MasterDataTransaction.SetDataSetKind | src/core-plugins/jupyter-api/1/as/initialize-master-data.py:40 | only the kind changes |
| MasterData.MasterDataTransaction.SetDataSetDescription | src/core-plugins/jupyter-api/1/as/initialize-master-data.py:41 | only the description changes |
| MasterData.MasterDataTransaction.GetOrCreateNewPropertyType | src/core-plugins/jupyter-api/1/as/initialize-master-data.py:70 | the existing property type with the code, or a new one appended |
| MasterData.MasterDataTransaction.SetPropertyDescription | src/core-plugins/jupyter-api/1/as/initialize-master-data.py:71 | only the description changes |
| MasterData.MasterDataTransaction.SetPropertyLabel | src/core-plugins/jupyter-api/1/as/initialize-master-data.py:72 | only the label changes |
| MasterData.MasterDataTransaction.AssignPropertyType | src/core-plugins/jupyter-api/1/as/initialize-master-data.py:56 | one new assignment with no flag set |
| MasterData.MasterDataTransaction.SetSection | src/core-plugins/jupyter-api/1/as/initialize-master-data.py:58 | only the section changes |
| MasterData.MasterDataTransaction.SetShownEdit | src/core-plugins/jupyter-api/1/as/initialize-master-data.py:59 | only shownEdit changes |
| MasterData.MasterDataTransaction.SetManaged | src/core-plugins/jupyter-api/1/as/initialize-master-data.py:62 | only managed changes |
| MasterData.MasterDataTransaction.SetDynamic | src/core-plugins/jupyter-api/1/as/initialize-master-data.py:65 | only dynamic changes |
| MasterData.MasterDataTransaction.SetScriptName | src/core-plugins/jupyter-api/1/as/initialize-master-data.py:63 | only the script name changes |
| MasterData.CreatedTypesCodes | src/core-plugins/jupyter-api/1/as/initialize-master-data.py:69-76 | `createProperty` keeps every existing code in place and appends at most one type, only when no type had the code yet; the type at the position it returns has the code |
| MasterData.TypesAfterRowsCodes | src/core-plugins/jupyter-api/1/as/initialize-master-data.py:44-76 | over any rows, the existing codes stay in place, and every property type created in the run has a code that no earlier type has and that was not cached before |
| MasterData.AssignedRowsAt | src/core-plugins/jupyter-api/1/as/initialize-master-data.py:44-67 | `AssignedRows` read position by position: the j-th new assignment is the one `AssignmentFor` gives for the j-th row, to the entity and to the property type cached for the row's code |
| MasterData.AssignmentFlags | src/core-plugins/jupyter-api/1/as/initialize-master-data.py:57-67 | the section is set exactly when given; shownEdit ends True exactly without a dynamic script; managed and dynamic are set (to True) exactly when their script is given; with both scripts the script name is the dynamic one |
| MasterData.AssignmentFor | src/core-plugins/jupyter-api/1/as/initialize-master-data.py:56-67 | the assignment `addProperty` leaves behind, flag by flag; stated by `AssignmentFlags` and reached setter by setter in `SetAssignmentFlags` |
| MasterData.MasterDataScript.constructor | src/core-plugins/jupyter-api/1/as/initialize-master-data.py:29 | `propertiesCache` starts empty |
| MasterData.MasterDataScript.CreateProperty | src/core-plugins/jupyter-api/1/as/initialize-master-data.py:69-76 | returns the position of the first property type with the code, or of a new one at the end; the types become those `CreatedTypes` states (an existing type takes the description and label and keeps its data type; otherwise one type is appended with all four); the code is cached at that position; data set types and assignments unchanged |
| MasterData.MasterDataScript.AddProperty | src/core-plugins/jupyter-api/1/as/initialize-master-data.py:48-67 | a cached code reuses its property type and leaves the cache and the property types unchanged; otherwise the code is cached at its `PropertyTypeIndex` and the types change as `CreatedTypes` states (`TypeStep`); every earlier cache entry is kept; exactly one assignment is added, with the flags of `AssignmentFor`; data set types unchanged |
| MasterData.MasterDataScript.SetAssignmentFlags | src/core-plugins/jupyter-api/1/as/initialize-master-data.py:57-67 | the setter calls, in their order, leave the assignment `AssignmentFor` states |
| MasterData.MasterDataScript.AddProperties | src/core-plugins/jupyter-api/1/as/initialize-master-data.py:44-46 | one assignment per row, in row order, each for the cached property type of its code (`AssignedRows`); earlier assignments and cache entries kept; the property types are exactly those `TypesAfterRows` states, so (by `TypesAfterRowsCodes`) every property type created has a code no earlier type has and that was not cached before |
| MasterData.MasterDataScript.DefineDataSetType | src/core-plugins/jupyter-api/1/as/initialize-master-data.py:39-41 | returns the position of the first data set type with the code, or of a new one at the end; that type ends with the kind and description (`DefinedDataSetTypes`); property types and assignments unchanged |
| MasterData.MasterDataScript.CreateDataSetTypeWithProperties | src/core-plugins/jupyter-api/1/as/initialize-master-data.py:38-42 | the data set type is fetched or created at `DataSetTypeIndex` and given the kind and description (`DefinedDataSetTypes`); then one assignment per row to that type, in order (`AssignedRows`), earlier assignments and cache entries kept, and the property types become those `TypesAfterRows` states |
| MasterData.DefinedWhenAbsent | src/core-plugins/jupyter-api/1/as/initialize-master-data.py:39-41 | registering a data set type code that no type has appends one new type with the kind and description, at the end |
| MasterData.JupyterTypesAppend | src/core-plugins/jupyter-api/1/as/initialize-master-data.py:86-92 | registering the three Jupyter types in order over types that have none of their codes appends them, container first, after the existing types |
| MasterData.ContainerRowsAppend | src/core-plugins/jupyter-api/1/as/initialize-master-data.py:86-89 | when neither NAME nor DESCRIPTION is cached or known, the container rows append exactly NAME (VARCHAR, label "Name", description "Name") and DESCRIPTION (MULTILINE_VARCHAR, label "Description", description "A Description"), in that order |
| MasterData.InitJupyterMasterData | src/core-plugins/jupyter-api/1/as/initialize-master-data.py:78-92 | on a transaction that does not yet know the three Jupyter types (whatever else it knows): JUPYTER_CONTAINER (CONTAINER), JUPYTER_RESULT and JUPYTER_NOTEBOOK (PHYSICAL) are appended to the existing types; exactly two assignments are added, NAME and DESCRIPTION to the container type, editable, without section or scripts; the property types become those `TypesAfterRows` states for the container rows, and when NAME and DESCRIPTION are neither cached nor known, exactly those two types are appended |

## Left out

- Login: only the guard is modelled; the rest of the method is a stub with no behaviour.
- `Openbis.get_samples`, `get_samples_with_data`, `get_data_sets` and `create_data_set_from_notebook` are empty stubs with no behaviour.
- TokenStore.FileSystem.MakeDirs: does not model parent directories. `os.makedirs` also creates missing ancestors, and a file in the way of an ancestor would raise. The disk is flat and paths are compared as strings, with no normalisation.
- TokenStore: permissions, other `OSError`s, text encoding, and the race between `os.path.exists` and `open` are not modelled.
- TokenStore.WriteToken: a regular file at the store folder, or at one of its ancestors, is not a failure in this model. Python raises NotADirectoryError when it opens the token file there, while the model writes the file, because the flat disk does not relate a path to its parent.
- TokenStore.ReadToken: the file is read verbatim. Python 3's text mode turns "\r\n" and "\r" into "\n" on reading, so a token holding "\r" does not read back as written.
- TokenStore.WriteThenRead: holds for the model's verbatim read only; for a token holding "\r", Python's text-mode read differs, as stated for `TokenStore.ReadToken`.
- Authenticator.Authenticate: the result of `Openbis(...)` is the parameter `openbisRaises`, because the call goes to code outside this model. The `Openbis` in src/python/PyBis/pybis/pybis.py takes two arguments and is called with one, and src/python/pybis/pybis.py has no `Openbis` at all, so which package is installed decides what happens.
- Authenticator: only the default `valid_username_regex` is modelled, not a configured one. traitlets configuration, the tornado coroutine, `print` and logging are left out. `data['username']` and `data['password']` are parameters, so a missing key is not modelled.
- UploaderParsing.Value: lists, maps and other objects carry their `unicode` form as given text, because the platform's string conversion is outside this model.
- DatasetUploader.ParentCodes: a `parents` value other than None or a list of strings is a TypeError in this model. What the platform's `setParentDatasets` does with such a value is outside it.
- DatasetUploader.FileNames: a map-valued `fileNames` is refused as a TypeError. Jython would iterate its keys, in an order this model does not fix.
- DatasetUploader.RegisterResultFiles: `prepareFilesForRegistration` is left out. It copies streams and names its directory after `time.time()`. What it gives is the parameter `prepared`: the directory it returns, or None when it raises. A `fileNames` that cannot be iterated raises before the preparation is logged, although the real preparation has already created its directory by then.
- DatasetUploader.Transaction.PrepareFiles: whether the preparation raises is given from outside, not derived. On the text it raises for a missing `incoming-dir` thread property (dataset-uploader-api.py:206-207), and it passes `os.makedirs` both a `java.io.File` path and the `exist_ok` keyword, which the Python 2 of Jython does not accept (dataset-uploader-api.py:220), so on the text every non-empty file list would raise there.
- DatasetUploader.Process: `getThreadProperties`, which only `prepareFilesForRegistration` calls, the `folerName` lookup, the `os.path.join` whose result is unused, and the commented-out user check are left out. An exception aborts the platform transaction, which is not modelled: the state is recorded as it is at the raise.
- DatasetUploader.SetPropertiesOfCreated and SetPropertiesOfFound: the source iterates `keySet()` in an order the model does not fix. The model states the end result for a created container, and "each key exactly once" for a found one.
- DatasetUploader.Transaction: the search service and code allocation are oracles given at construction, because the platform is foreign code.
- MasterData.MasterDataScript.CreateProperty: requires a data type other than CONTROLLEDVOCABULARY. That branch reads `vocabulariesCache`, which the script never defines, so it would raise a NameError.
- MasterData.PropertyRow: rows are records of eight fields. A Python list with fewer than eight elements would raise IndexError in `addProperties`, and that is not modelled.
- MasterData: `samplesCache` is declared and never used, so it is not modelled.
- MasterData.InitJupyterMasterData: requires that none of the three Jupyter codes exists yet. A re-run against a server that already has them (the types are then reused, their kind and description set again) is not stated for the whole script, only step by step by `MasterData.MasterDataScript.CreateDataSetTypeWithProperties`.

## Findings

| source | as written | input that shows it | evidently intended | confidence | as-written member | corrected member |
|---|---|---|---|---|---|---|
| src/python/PyBis/pybis/pybis.py:96-97 | the guard tests `has_username_and_password` without calling it; a bound method is always true, so the ValueError is never raised | `OpenbisCredentials()` (no token, no pair): `login()` returns normally | raise ValueError when the credentials have no username/password pair, as the docstring says | high (not executed) | Openbis.LoginAcceptsMissingPair | Openbis.LoginAsIntended |
