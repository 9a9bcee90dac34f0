# Kubernetes Pod manifest generator: a Dafny model

The generator is a single-page form (`script.js`). On every change it reads
the form into a plain pod description (`collectState`), then writes a
Kubernetes Pod manifest as YAML text (`generateYaml`). When the "CKAD mode"
switch is on, it writes an explanatory comment before most blocks
(`ckadComment`). Under the text it shows `kubectl apply -f <name>.yaml`.

This project models that core as pure functions over immutable datatypes:

- `Pod` holds the pod description: metadata, spec fields and the one
  container.
- `Collect` holds the form as read, and `CollectState`, which applies the
  source's filters and defaults and tokenizes the exec command.
- `Render` writes the manifest. It is a list of blocks; each block is a
  run of YAML lines with an optional comment. `GenerateYaml` joins the
  lines with newlines.
- `Accumulate` builds the text the way the source does, by appending
  `"\n" + line`, and proves it equal to the joined lines.
- `Annotate` holds `ckadComment` and the documentation-link table.
- `Numbers` holds `parseInt` on decimal text, the printing of numbers, and
  the `parseInt(port) || 80` fallback.
- `Seqs` holds the order-preserving `map` and `filter` the collector is
  built from, and the per-entry concatenation the renderer uses.
- `Text` holds `split`, `join`, `trim`, `' '.repeat` and the `indent`
  helper.
- `Entries` and `Items` give readers that take written entries back to
  their fields. With them the model proves round trips for tolerations,
  volumes, key/value entries, environment items, volume mounts, the
  resources block and bracketed command lists.
- `Outline` gives the manifest's keys, each with its guard, independently
  of the renderer.
- `Neutrality` proves that comments are the only thing annotation adds.
- `Presence` and `Fields` prove which keys the whole manifest carries.
- `Shapes` and `BlockShapes` hold indentation facts used by the proofs.
- `Samples` checks a few concrete values.

The model follows the code as written, including three quirks:

- No `containers:` key is written above the container entry
  (`Fields.NoContainersHeading`).
- `envFrom` sources are written as `- envFrom:` items of the `env:` list.
  The container gets no `envFrom:` key of its own (`Fields.EnvSection`,
  `Fields.NoEnvFromKey`).
- The comment before `spec:` looks up a documentation key, `spec`, that the
  link table lacks, so it carries no `# Doc:` line
  (`Annotate.SpecCommentHasNoLink`).

`script.js` writes no image pull secrets, init containers or lifecycle
hooks, and the model writes none either.

## Model

| member | source | states |
|---|---|---|
| Text.Indent | script.js:27 | The result has as many lines as the input, and each line is `count` spaces followed by the input's line at the same position. |
| Text.JoinSplit | script.js:27 | Joining the pieces of `split` with the separator gives back the original text. |
| Text.SplitJoin | script.js:27 | Splitting a join of separator-free pieces gives back the pieces. |
| Text.SplitConcat | script.js:150 | Splitting text that has a separator between two parts gives the pieces of the left part followed by the pieces of the right part. |
| Text.Trim | script.js:150 | The result is a contiguous slice of the input with no white space at either end, and everything cut off before and after it is white space. Text with no white space at its ends is returned unchanged. |
| Text.TrimUnique | script.js:150 | Any slice of the input that has no white space at its ends and only white space around it is the trimmed text. With `Text.Trim` this pins `trim()` down exactly. |
| Text.JoinIsAccumulation | script.js:162-165 | Joining lines with a separator equals the first line followed by separator-plus-line for each further line. This is how the source grows its output string. |
| Annotate.CommentLinesShape | script.js:28-33 | With annotation off, no comment is written. With it on, `# <text>` is written, then `# Doc: <url>` exactly when the key has a link. Every comment line starts with `#`. |
| Annotate.CkadComment | script.js:28-33 | The comment text is its comment lines, each after a newline. |
| Annotate.NoteText | script.js:31-32 | `\n# text`, plus `\n# Doc: url` for a non-empty url, is those one or two lines, each after a newline. |
| Annotate.SpecCommentHasNoLink | script.js:178 | The comment before `spec:` has no `# Doc:` line, because `spec` is missing from the link table. |
| Numbers.ParseIntDefined | script.js:192-194 | `parseInt` gives a number exactly when, after leading white space, the text has a digit, or a sign followed by a digit. Otherwise it gives NaN. |
| Numbers.SpaceSkipped | script.js:192-194 | A leading white-space character, including the Unicode spaces, does not change what the text parses to. |
| Numbers.PlusPrefix | script.js:192-194 | A plus sign before text whose leading digits read as `v` parses to `v`. |
| Numbers.NoNumberStart | script.js:192-194 | Text whose first character is not white space, a digit or a sign parses to NaN. |
| Numbers.ParsePositiveText | script.js:192-194 | Digits followed by text that does not start with a digit parse to the digits' value. |
| Numbers.MinusPrefix | script.js:192-194 | A minus sign before text whose leading digits read as `v` parses to `-v`. |
| Numbers.ParseIntRoundTrip | script.js:266-269 | The printed form of any integer, followed by non-digit text, parses back to that integer. |
| Numbers.IntTextReparses | script.js:192-194 | `IntText`, the printed `${parseInt(x)}`, is `NaN` exactly when nothing parses. Otherwise it parses back to the same value. |
| Numbers.PortOr80 | script.js:263-264 | The port is never 0. It is the parsed value when that value is non-zero, and 80 when nothing parses or the value is 0. |
| Collect.KeyValuePairs | script.js:117 | The pairs kept are exactly the rows with a non-empty key. Rows that all have keys are kept unchanged. |
| Collect.KeyValuePairsOrder | script.js:117 | Page order is kept: collecting two runs of rows gives the first run's pairs, then the second's. |
| Collect.SingleValues | script.js:118 | The values kept are exactly the non-empty entries. Entries that are all non-empty are kept unchanged. |
| Collect.SingleValuesOrder | script.js:118 | Page order is kept for single values. |
| Seqs.FilterConcat | script.js:129-153 | Filtering keeps page order: the entries kept from two runs of rows are those of the first run, then the second. This is the order lemma for tolerations, envFrom sources and mounts. |
| Collect.Tokenize | script.js:150 | Every token of the exec command is non-empty, contains no comma and has no white space at either end. |
| Collect.TokenizeConcat | script.js:150 | Tokens keep source order: the tokens of `a,b` are those of `a`, then those of `b`. |
| Collect.TokenizeJoin | script.js:150 | Writing valid tokens with commas between them and tokenizing gives the tokens back. |
| Collect.TokenizePiece | script.js:150 | A comma-free piece of the command becomes its trimmed self, or no token when it is all white space. With `Collect.TokenizeConcat` and the trim lemmas this fixes the tokens of every command. |
| Collect.CollectVolume | script.js:130-136 | The name and type are kept. The source name is the row's ConfigMap name, Secret name or claim name, matching the type. Other types get no source name. |
| Collect.Volumes | script.js:130-137 | The kept volumes are exactly the volumes of the named rows: each kept volume comes from a named row, and each named row's volume is kept. A single row gives its volume exactly when it is named. |
| Collect.VolumesOrder | script.js:130-137 | Volumes keep page order. |
| Collect.CollectProbe | script.js:146-151 | The name, kind and four timing fields are copied from the slot. An `httpGet` probe takes the slot's HTTP path and port, and a `tcpSocket` probe its TCP port. No other kind gets a path or port. An exec probe's command is the tokenized command text. |
| Collect.Probes | script.js:146-152 | The kept probes are exactly the probes of the slots whose kind is not `none`: each kept probe comes from such a slot, and each such slot's probe is kept. A single slot gives its probe exactly when its kind is not `none`. |
| Collect.ProbesOrder | script.js:146-152 | Probes keep page order. |
| Collect.ProbesOf | script.js:146-152 | A probe of a given name is collected exactly when the form has a slot of that name whose kind is not `none`. |
| Collect.CollectContainer | script.js:138-154 | The container name defaults to `main-container` and the image to `nginx`. Resources are copied. The command words, arguments, env pairs, envFrom sources and mounts are the form's own lists filtered in page order, keeping duplicates: the non-empty words, the pairs with a key, the sources with a name, and the mounts with both a name and a mount path. The probes are the collected probe slots. |
| Collect.CollectState | script.js:116-156 | The pod name defaults to `my-pod`, and the container is the collected container. Scalar fields and the security context are copied. Labels, annotations, node selectors and tolerations are the form's lists filtered in page order to the entries with a key. The volumes are the collected volume rows. Every list holds only complete entries. |
| Render.Quoted | script.js:205 | The value is wrapped in double quotes with nothing escaped. |
| Items.BracketedRoundTrip | script.js:226-230 | Reading a written command or args list back gives the items in order. The reader accepts only quoted items separated by `, `. This holds for items without a double quote. |
| Items.BracketedExact | script.js:226-230 | Conversely, text that reads as a list of items is exactly how that list is written, with `, ` between the quoted items, and those items hold no double quote. |
| Render.TolerationLines | script.js:204-208 | A toleration is written as a quoted key, then the operator, then the value only for `Equal`, then the effect: four lines for `Equal` and three otherwise. |
| Render.VolumeSourceLines | script.js:215-218 | The type chooses the source block: `emptyDir: {}`, `configMap` with `name`, `secret` with `secretName`, or `persistentVolumeClaim` with `claimName`. An unknown type writes nothing. |
| Render.VolumeLines | script.js:213-219 | A volume is its `- name:` line followed by its source block. |
| Render.IdLine | script.js:192-194 | An id line is written exactly when its field is set. It starts with its key, and the text after the key is `NaN` exactly when the field does not parse. Otherwise it parses back to the field's value. |
| Render.SecurityContextFields | script.js:188-195 | `SecurityContextLines`: under the heading, each of the three id lines is written exactly when its field is set. There is one line per set field. |
| Render.QuantityPresence | script.js:247-251 | The `cpu` and `memory` lines are each written exactly when that quantity is set. A section has no quantity lines exactly when neither is set. |
| Render.ResourcesGuards | script.js:243-256 | `ResourcesLines`: `requests:` is written exactly when a requested quantity is set, and `limits:` exactly when a limit is set. |
| Items.ResourcesRoundTrip | script.js:243-256 | Reading the `resources:` block back gives every request and every limit: the `requests:` section holds the requested cpu and memory, and the `limits:` section holds the limits. |
| Render.ProbeLines | script.js:259-261 | A probe's lines start with its `<name>Probe:` heading. |
| Render.YamlLines | script.js:159-279 | `GenerateYaml`'s text splits at its newlines back into `RenderLines`, the manifest's lines, when no value holds a newline. So the line-level properties hold for the text's lines. |
| Items.EntryRoundTrip | script.js:170 | Reading back a written `key: value` entry gives its key and value, for a key without a colon. |
| Items.LabelsRoundTrip | script.js:167-171 | The labels block is its `labels:` heading, then one entry per label that reads back to that label, in order. |
| Items.AnnotationsRoundTrip | script.js:172-176 | The annotations block is its `annotations:` heading, then one entry per annotation that reads back to it, in order. |
| Items.NodeSelectorRoundTrip | script.js:196-200 | The node selector block is its `nodeSelector:` heading, then one entry per selector that reads back to it, in order. |
| Items.EnvVarRoundTrip | script.js:236 | `EnvVarLines` writes an environment variable as two lines that read back to its name and value. |
| Items.EnvFromRoundTrip | script.js:240 | `EnvFromLines` writes an envFrom source as three lines that read back to its type and name. |
| Items.EnvItemsRoundTrip | script.js:232-241 | Reading the `env:` list's items back gives the variables and the envFrom sources, each in order. |
| Items.MountRoundTrip | script.js:276 | `VolumeMountLines` writes a mount as two lines that read back to its name and mount path. |
| Items.MountsRoundTrip | script.js:273-277 | The mounts block is its `volumeMounts:` heading, then the mounts' lines, which read back to the mounts in order. |
| Fields.EnvSection | script.js:232-241 | With variables or envFrom sources, the plain container entry holds `env:`, then the variable items, then the envFrom items, then the next container key. Those items read back to the variables and sources, and all sit under `env:`. |
| Render.ApplyCommand | script.js:280 | The command is `kubectl apply -f `, then the pod name, then `.yaml`. |
| Entries.TolerationRoundTrip | script.js:204-208 | Reading back a written toleration gives its key, operator and effect. It also gives the value for `Equal`, and an empty value otherwise. |
| Entries.TolerationValueLine | script.js:206 | A toleration has a `value:` line exactly when its operator is `Equal`. |
| Entries.VolumeRoundTrip | script.js:213-219 | Reading back a written volume gives its name. It gives the type when the type is known, and the source name for the three types that have one. |
| Entries.TimingPresence | script.js:266-269 | Each of the four timing lines is written exactly when its field is set. |
| Entries.ExecLine | script.js:265 | `ProbeActionLines`: a probe has an `exec:` block exactly when its kind is `exec` and its command has at least one token. |
| Entries.CommandLine | script.js:265 | A probe has the line `command: ` followed by its bracketed command exactly when its kind is `exec` and its command has at least one token. No other line of the probe can be that line. |
| Items.CollectedCommandLine | script.js:265 | From the form (tokenized at script.js:150): an exec slot whose command text has tokens gets a `command:` line, and that line reads back through `Items.Unbracket` as those tokens in order. This holds for tokens without a double quote. |
| Entries.TimingValues | script.js:266-269 | Each timing line holds its field's value through `parseInt` (`Numbers.IntText`), and is written exactly when the field is set. |
| Entries.CollectedExecLine | script.js:150 | From the form: an `exec:` block is written exactly when the slot's kind is `exec` and its command text has at least one token. |
| Entries.PortLine | script.js:263-264 | An HTTP or TCP probe has a `port:` line whose value parses to the port with its fallback to 80 (`Numbers.PortOr80`). |
| Entries.PathLine | script.js:263 | An HTTP probe has a `path:` line holding the path, or `/` when the path is empty. |
| Fields.PlainOpening | script.js:162-165 | The plain manifest starts with `apiVersion: v1`, `kind: Pod`, `metadata:`, `  name: <podName>`. |
| Fields.ContentOpening | script.js:162-165 | In either mode, the first four non-comment lines are the header, `metadata:` and the name line. |
| Fields.TextOpening | script.js:162 | In either mode the text starts with `apiVersion: v1\nkind: Pod\n`. |
| Fields.NamespacePresence | script.js:166 | The manifest has a `namespace:` key, and the `namespace: <value>` line, exactly when the namespace is set. |
| Fields.ServiceAccountPresence | script.js:180-183 | The manifest has a `serviceAccountName:` key, and its value line, exactly when the field is set. |
| Fields.RestartPolicyPresence | script.js:184-187 | The manifest has a `restartPolicy:` key, and its value line, exactly when the policy is not `Always`. |
| Fields.SecurityContextPresence | script.js:188-191 | The manifest has a `securityContext:` key exactly when some pod security field is set. |
| Fields.NoContainersHeading | script.js:221-223 | No line of the manifest starts with `  containers:`. |
| Fields.EnvPresence | script.js:232-233 | The container has an `env:` key exactly when there are environment variables or envFrom sources. |
| Fields.NoEnvFromKey | script.js:238-241 | The container has no `envFrom:` key of its own, in either mode. |
| Fields.ResourcesPresence | script.js:244-246 | The container has a `resources:` key exactly when one of the four quantities is set. |
| Fields.ProbePresence | script.js:258-261 | The container has a `<name>Probe:` heading exactly when it holds a probe of that name. |
| Fields.CollectedProbeHeading | script.js:152 | From the form: a probe heading is written exactly when the form has a slot of that name whose kind is not `none`. |
| Fields.ApplyNamesManifest | script.js:280 | The deploy command names exactly the pod name written under `metadata:`, in either mode. |
| Neutrality.ManifestNeutral | script.js:28-33 | Deleting the comment lines from the annotated manifest gives the plain manifest, line for line. |
| Neutrality.AnnotationOnlyComments | script.js:28-33 | Every line that annotation adds is a comment. |
| Neutrality.PodOutlineOf | script.js:163-220 | `RenderLines`, in either mode: the lines directly under `metadata:` and `spec:` are the pod outline. Each of its keys appears in source order and exactly under its guard. |
| Neutrality.ContainerOutlineOf | script.js:221-276 | In either mode, the container entry's keys are the container outline. That is the image, then command, args, `env:`, `resources:`, one heading per probe and `volumeMounts:`, each exactly under its guard. |
| Accumulate.AccumulatedIsGenerated | script.js:162-276 | Building the text by appending each comment and each `"\n" + line` gives the same string as joining the manifest's lines with newlines. |
| Samples.ParseSignSpaceSamples | script.js:192-194 | ` 8080`, `8080` after an ideographic space, and `+8080` all parse to 8080. |
| Samples.LetterFirstSample | script.js:192-194 | `a5` parses to NaN. |
| Samples.PortSample | script.js:263 | The port text `8080` gives port 8080. |
| Samples.PortFallbackSample | script.js:263-264 | The port texts `abc` and the empty text give port 80. |
| Samples.TrimmedPiece | script.js:150 | A command word with one space at either end tokenizes to the bare word. |
| Samples.SpacedPair | script.js:150 | Two words with a space after the comma between them tokenize to the two bare words. |
| Samples.CommandSample | script.js:150 | The command text `sh, -c` tokenizes to `sh` and `-c`. |
| Samples.ApplySample | script.js:280 | The default pod's deploy command is `kubectl apply -f my-pod.yaml`. |

## Left out

- Reading the page is not modelled: `get`, `getAll`, `querySelector` and the `?.value` reads. `CollectState` starts from a `Form` value that holds what those reads return.
- Event wiring and form building are not modelled: the dynamic list items, the volume and probe option switches, `validateForm`. These are browser plumbing with no output of their own.
- Writing the output is not modelled: the text-area value, `localStorage` save and restore, clipboard, download and the sample loaders' form writes. These are browser I/O. The model returns the text and the deploy command as values.
- The `try`/`catch` that prints an error stack is not modelled. Nothing in the modelled core throws.
- A missing form value (`undefined`) is modelled as the empty string. So a missing restart policy writes an empty value here, where the source prints `undefined`.
- Probe names are limited to liveness, readiness and startup, the three slots the page creates.
- `parseInt` is modelled for decimal text only. It skips ECMAScript's white space and line terminators and accepts one sign. Hexadecimal prefixes and other radixes are not modelled.
- Printing of numbers is exact decimal. JavaScript's float precision and exponent notation for very large values are not modelled.
- Values are interpolated raw, with no YAML quoting or escaping, in the source and in the model. The line-level properties are about the list of lines. They carry over to the joined text's lines only when no value contains a newline.
- `indent` is defined in the source but never called by the generator. It is modelled on its own, with the line count passed explicitly instead of defaulting to 2.
- Entries.PortLine: states that some line of the probe carries the port, not its position after the `httpGet:` or `tcpSocket:` line.
- Entries.PathLine: states that some line of the probe carries the path, not its position.
- Render.ResourcesGuards: states only when each section heading is written. Which quantities sit under each heading is stated by `Items.ResourcesRoundTrip`.
- Render.ProbeLines: its contract names only the heading. The handler lines are stated by `Entries.ExecLine`, `Entries.CommandLine`, `Entries.PortLine` and `Entries.PathLine`. The timing lines and their values are stated by `Entries.TimingPresence` and `Entries.TimingValues`. No lemma states the order of the lines under the heading.
- Items.CollectedCommandLine: holds only for tokens without a double quote, for the reason given for `Items.BracketedRoundTrip`.
- Items.EntryRoundTrip: holds only for keys without a colon. The source writes `key: value` unescaped, so a key with a colon cannot be read back.
- Items.LabelsRoundTrip: holds only for label keys without a colon, for the same reason.
- Items.AnnotationsRoundTrip: holds only for annotation keys without a colon, for the same reason.
- Items.NodeSelectorRoundTrip: holds only for selector keys without a colon, for the same reason.
- Items.BracketedRoundTrip: holds only for items without a double quote. The source wraps each item in quotes without escaping.
- Render.YamlLines: holds only when no written line holds a newline, since values are not escaped.
