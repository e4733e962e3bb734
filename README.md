# aleo-agent, modelled in Dafny

This project models the local logic of `aleo-agent`, a Rust client library
for the Aleo network, and proves what that logic promises. The model covers:

- **The agent** (`agent.rs`):
  - its endpoint and account, and the setters that change them in place;
  - the two record scanners:
    - `get_unspent_records` walks down in 49-block windows, keeps the owned, unspent records that decrypt, and stops once a microcredit total is reached;
    - `scan_records` walks up in 50-block windows aligned to multiples of 50, keeps every owned record, and stops once a record count is reached;
  - the local part of `transfer`: its two balance checks, the function name of each transfer type, and the inputs given to the credits program.
- **The account** (`account.rs`):
  - the constructors, each of which derives the view key and address from the private key;
  - the password backup of the private key's seed, which blinds the seed with a hash and then encrypts it symmetrically.
- **The chain requests** (`chain.rs`):
  - the range guards of `get_blocks_in_range`;
  - the request URLs, some of which have their quotes stripped;
  - the error messages of `broadcast_transaction`.
- **The program manager** (`program.rs`):
  - `get_program_records`, which scans the same aligned windows with no early stop, keeping one program's owned records (optionally only the unspent ones);
  - `get_import_programs_from_chain`, a depth-first search that fills an insertion-ordered map;
  - `initialize_vm`, which loads the resolved imports into a VM, all but `credits.aleo`, then loads the program itself.
- **The agent builder** (`builder.rs`).

Everything outside the program is a parameter:

- the node, as a function from a request URL to its decoded answer;
- the cryptography and record operations of snarkVM, as records of functions (`FieldOps`, `KeyOps`, `RecordOps`);
- the VM's acceptance of a program;
- randomness.

Machine integers are explicit:

- heights are `u32`;
- amounts are `u64`;
- `usize::MAX` is the 64-bit value;
- `saturating_sub` is written out;
- the loop limit `end + (50 - end % 50)` is required to fit in a `u32`.

The modules follow the source files:

- `Accounts` (account.rs), `Agents` (agent.rs), `Chain` (chain.rs), `Programs` (program.rs), `Builder` (builder.rs);
- `Lib`, the crate constants;
- `Windows`, the window arithmetic shared by the scanners;
- `Scans`, the shared shape of the scanning loops, with their reference results;
- `IndexMaps`, the insertion-ordered map of the `indexmap` crate;
- `Format`, Rust's `{}`, `{:?}` and `replace`;
- `Snarkvm`, the foreign types;
- `Wrappers`, `Option` and `Result`.

Four behaviours of the code are easy to misread, and the model keeps them as written:

- The first descending window of `get_unspent_records` is `end.saturating_sub(49)..end`, and it is not clamped to the range's start. Only the later windows are clamped.
- A decryption failure in `get_unspent_records` skips the record silently.
- Both scanners test their limit only after a whole window, so the total or the count may overshoot it.
- `scan_records` and `get_program_records` never request past `end`: the loop breaks at the first window start `>= end`, and each window is clipped to `end`.

## Model

| member | source | states |
|---|---|---|
| Windows.SaturatingSub | aleo-agent/src/agent.rs:161 | `a - b` when b <= a, else 0, never negative |
| Windows.StepCountIsCeiling | aleo-agent/src/agent.rs:163 | `(start..end).step_by(49)` runs ceil((end - start) / 49) times |
| Windows.DescendingWindows | aleo-agent/src/agent.rs:154-201 | every window `get_unspent_records` visits when it does not stop early; the DescendingWindows lemmas below state count and shape |
| Windows.DescendingWindowsClosedForm | aleo-agent/src/agent.rs:154-163 | the descending windows of a range: how many there are, and the i-th in closed form |
| Windows.DescendingWindowsShape | aleo-agent/src/agent.rs:160-161 | the first window is `(end - 49, end)` saturated at 0, not clamped to start; each later window ends where the previous began, is clamped up to start, and is non-empty with width <= 49 |
| Windows.DescendingWindowsPassGuard | aleo-agent/src/agent.rs:196-200 | every descending window passes both guards of `get_blocks_in_range` |
| Windows.FirstDescendingNotClamped | aleo-agent/src/agent.rs:161 | a 10-block range is read with one 49-block window reaching below its start |
| Windows.DescendingWindowsExample | aleo-agent/src/agent.rs:154-200 | the windows of a concrete range |
| Windows.AlignDown | aleo-agent/src/agent.rs:237 | `start - start % 50` is the greatest multiple of 50 not above start |
| Windows.AlignedLimit | aleo-agent/src/agent.rs:239 | `end + (50 - end % 50)` is a multiple of 50 past end |
| Windows.AlignedWindows | aleo-agent/src/agent.rs:237-257 | every window `scan_records` and `get_program_records` visit; AlignedWindowsShape states them |
| Windows.AlignedWindowsShape | aleo-agent/src/agent.rs:244-257 | the aligned windows start at start rounded down and ascend by 50, each `[s, min(s+50, end))`, up to the first `s >= end`; each is non-empty with width <= 50 |
| Windows.AlignedWindowsPassGuard | aleo-agent/src/agent.rs:249-257 | every aligned window passes both range guards |
| Windows.AlignedEmptyRange | aleo-agent/src/agent.rs:237-251 | an empty unaligned range still reads from the multiple of 50 below it; an aligned empty range reads nothing |
| Windows.AlignedWindowsExample | aleo-agent/src/agent.rs:244-257 | `75..180` is read as three windows, the first from height 50 |
| Scans.Sum | aleo-agent/src/agent.rs:178 | the running total over a sequence of records (SumAppend: it adds up over concatenation) |
| Scans.SumAppend | aleo-agent/src/agent.rs:178 | the total of a concatenation is the sum of the totals |
| Scans.AllFoundRequests | aleo-agent/src/agent.rs:169-170 | the reference result of a window sequence exists only when every request succeeded |
| Scans.AllFoundMembers | aleo-agent/src/agent.rs:187 | the reference result holds exactly what some window gave |
| Scans.WeightScanPrefix | aleo-agent/src/agent.rs:163-201 | a weighed scan requests a non-empty prefix of its windows |
| Scans.WeightScanReturnsFound | aleo-agent/src/agent.rs:187 | a weighed scan returns the reference result of the windows it requested, in window order |
| Scans.WeightScanFailsLast | aleo-agent/src/agent.rs:170 | a failed scan failed at its last request, all earlier ones succeeding |
| Scans.WeightScanStopRule | aleo-agent/src/agent.rs:191-193 | a scan ends early only when a limit is given and the total reached it, after a whole window |
| Scans.WeightScanFails | aleo-agent/src/agent.rs:169-170 | a failed request ends the scan with its error, that window being the last requested |
| Scans.WeightScanNoLimit | aleo-agent/src/agent.rs:191 | with no limit, a successful scan requests every window |
| Scans.WeightScanKeptGoing | aleo-agent/src/agent.rs:191-193 | after every shorter prefix of the requested windows the total was below the limit |
| Scans.AllOutcomeMembers | aleo-agent/src/agent.rs:277 | the panicking reference result holds exactly what some window returned |
| Scans.CountScanPrefix | aleo-agent/src/agent.rs:244-282 | a counted scan requests a non-empty prefix of its windows |
| Scans.CountScanReturnsFound | aleo-agent/src/agent.rs:277 | a counted scan returns the reference result of the windows requested |
| Scans.CountScanFailsLast | aleo-agent/src/agent.rs:262-269 | a request error or panic is the outcome of the last window requested |
| Scans.CountScanStopRule | aleo-agent/src/agent.rs:279-281 | a counted scan ends early only once the count reached the limit, at no earlier window |
| Snarkvm.FindEntry | aleo-agent/src/agent.rs:423 | `Record::find` returns the entry of that name, or fails when there is none |
| Snarkvm.FindMember | aleo-agent/src/account.rs:251 | `Plaintext::find` returns the struct member of that name; it fails on a literal or when the name is absent |
| Agents.Microcredits | aleo-agent/src/agent.rs:421-428 | succeeds exactly on a private u64 `microcredits` entry, and returns its value |
| Agents.UnspentRecord | aleo-agent/src/agent.rs:173-184 | keeps a record exactly when it is owned, its serial number derives, the spent lookup errors, and it decrypts |
| Agents.SpentOnChain | aleo-agent/src/agent.rs:176 | a serial number counts as spent only when the lookup succeeds; any lookup error counts as unspent (the same test as program.rs:156-159) |
| Agents.LookupErrorCountsUnspent | aleo-agent/src/agent.rs:174-181 | an owned record whose serial number derives and which decrypts is kept exactly when the lookup fails, whatever the error |
| Agents.UnspentInMembers | aleo-agent/src/agent.rs:173-184 | a window's records are exactly its pairs passing all four checks; failing pairs are skipped without an error |
| Agents.GatesAdditive | aleo-agent/src/agent.rs:178 | the microcredit total (missing counts 0) adds up over concatenation |
| Agents.UnspentRecords | aleo-agent/src/agent.rs:140-203 | the reference result of `get_unspent_records` and the windows it requests; the UnspentRecords lemmas below state its properties |
| Agents.UnspentRecordsWindows | aleo-agent/src/agent.rs:145-202 | an empty range fails with no request; otherwise a non-empty prefix of the descending windows is requested, each passing the guard, and their records are returned in window order |
| Agents.UnspentRecordsStopRule | aleo-agent/src/agent.rs:189-193 | stops early only when a limit is given and the total reached it after a whole window (it may overshoot); with `None`, every window is scanned |
| Agents.UnspentRecordsFailure | aleo-agent/src/agent.rs:169-170 | a failure is the error of the last window's block request, all earlier ones having succeeded |
| Agents.UnspentRecordsMembers | aleo-agent/src/agent.rs:173-187 | a successful result holds exactly the records passing the four checks in the requested windows |
| Agents.OwnedInPanics | aleo-agent/src/agent.rs:269 | a window panics exactly when one of its owned records fails to decrypt |
| Agents.OwnedInMembers | aleo-agent/src/agent.rs:265-274 | otherwise its records are exactly the owned ones, decrypted, with no spend check |
| Agents.ScannedRecords | aleo-agent/src/agent.rs:228-285 | the reference result of `scan_records` and the windows it requests, `None` meaning `usize::MAX`; the ScannedRecords lemmas below state its properties |
| Agents.ScannedRecordsWindows | aleo-agent/src/agent.rs:236-282 | requests a prefix of the aligned windows, each passing the guard; returns their records in window order; stops early only having reached `max_records`, never with `None` |
| Agents.ScannedRecordsFailure | aleo-agent/src/agent.rs:261-269 | a failure or panic happens at the last requested window: its request failed or an owned record did not decrypt |
| Agents.ScannedRecordsMembers | aleo-agent/src/agent.rs:261-277 | a returned result holds exactly the owned records of the requested windows, decrypted, spent or not |
| Agents.KeptStep | aleo-agent/src/agent.rs:173-184 | one more pair adds its record and its microcredits exactly when it passes the checks |
| Agents.FetchUnspent | aleo-agent/src/agent.rs:169-184 | one window's request and filter; the records kept and their microcredit total |
| Agents.FetchOwned | aleo-agent/src/agent.rs:261-275 | one window's request, its owned records decrypted, or the panic |
| Agents.Agent.constructor | aleo-agent/src/agent.rs:42-49 | the agent holds the given URL, network and account |
| Agents.Agent.Default | aleo-agent/src/agent.rs:26-35 | the public explorer, `testnet3` and the account of seed 0, whose keys derive from its private key |
| Agents.Agent.SetUrl | aleo-agent/src/agent.rs:72-74 | only the URL changes |
| Agents.Agent.SetNetwork | aleo-agent/src/agent.rs:76-78 | only the network changes |
| Agents.Agent.SetAccount | aleo-agent/src/agent.rs:80-82 | only the account changes |
| Agents.Agent.LocalTestnet | aleo-agent/src/agent.rs:84-87 | the network becomes `testnet3` and the URL `http://0.0.0.0:{port}`; the account is kept |
| Agents.Agent.GetUnspentRecords | aleo-agent/src/agent.rs:140-203 | the loop returns the model's result and requested windows (and so all the UnspentRecords lemmas hold of it) |
| Agents.Agent.ScanRecords | aleo-agent/src/agent.rs:228-285 | the loop returns the model's outcome and requested windows (and so all the ScannedRecords lemmas hold of it) |
| Agents.FunctionName | aleo-agent/src/agent.rs:441-450 | the `Display` of a transfer type: the credits function it calls (FunctionNameDeterminesKind: the four are distinct) |
| Agents.FunctionNameDeterminesKind | aleo-agent/src/agent.rs:441-450 | the four transfer types name four different credits functions |
| Agents.TransferArgsFrom | aleo-agent/src/agent.rs:486-500 | each argument lands in its own field despite the different parameter order |
| Agents.AmountInput | aleo-agent/src/agent.rs:512 | `format!("{}u64", amount)` parses back to a u64 literal of that amount |
| Agents.RecipientInput | aleo-agent/src/agent.rs:511 | panics exactly when the address text does not parse; when address text parses back, the input is that address literal |
| Agents.ToInputs | aleo-agent/src/agent.rs:506-522 | `[record, recipient, amount]` for the private kinds, `[recipient, amount]` for the public ones; it panics exactly when the recipient input does |
| Agents.TransferInputsRoundTrip | aleo-agent/src/agent.rs:506-522 | when address text parses back, the inputs are built and read back to exactly the spent record, the recipient and the amount |
| Agents.Transfer | aleo-agent/src/agent.rs:370-389 | both checks come before anything else; when they pass and the inputs are built, it requests `credits.aleo` with the type's function, the inputs, the fee record and the fee |
| Agents.CheckAmount | aleo-agent/src/agent.rs:371-379 | passes exactly when there is no spent record or it holds at least the amount in microcredits |
| Agents.CheckFee | aleo-agent/src/agent.rs:381-386 | passes exactly when there is no fee record or it holds at least the priority fee |
| Agents.TransferAccepted | aleo-agent/src/agent.rs:371-389 | when address text parses back, a transfer never panics, and it goes ahead exactly when the spent record covers the amount and the fee record covers the priority fee |
| Agents.TransferPanics | aleo-agent/src/agent.rs:388 | a transfer panics only after both checks pass, exactly when the recipient's text does not parse |
| Agents.TransferRejections | aleo-agent/src/agent.rs:373-385 | the amount check comes first; a record with no microcredits fails with that error |
| Agents.PublicTransferExample | aleo-agent/src/agent.rs:361-368 | the documented transfer of 100 microcredits from the public balance, fee 0, passes the checks and requests `transfer_public` with the recipient and `100u64` |
| Agents.CreditTransferExample | aleo-agent/src/lib.rs:38-44 | the crate example, one credit (`MICROCREDITS`) with fee 1, requests `transfer_public` with the recipient and `1000000u64` |
| Accounts.AccountOf | aleo-agent/src/account.rs:163-172 | succeeds exactly when view key and address derive; the account holds the key and is derived |
| Accounts.DerivedIsAccountOf | aleo-agent/src/account.rs:163-172 | a derived account is determined by its private key |
| Accounts.GenerateKeypair | aleo-agent/src/account.rs:269-275 | the account of the drawn private key, derived; a failed draw is its error |
| Accounts.GenerateKeypairFromSeed | aleo-agent/src/account.rs:261-267 | the private key is the one drawn from ChaCha seeded with the seed |
| Accounts.New | aleo-agent/src/account.rs:38-46 | a derived account from the entropy-seeded generator |
| Accounts.FromSeed | aleo-agent/src/account.rs:141-148 | derived, with the private key of the seeded generator; succeeds exactly when drawing and deriving do |
| Accounts.FromSeedDeterministic | aleo-agent/src/account.rs:132-148 | the same seed gives the same account |
| Accounts.FromPrivateKey | aleo-agent/src/account.rs:163-172 | the parsed key with its derived view key and address; a parse error is returned |
| Accounts.Default | aleo-agent/src/account.rs:30-34 | the account of seed 0, derived |
| Accounts.EncryptField | aleo-agent/src/account.rs:209-235 | encrypts the struct `{key: blinding * field, nonce}` under the secret; errors in hashing or encryption pass through |
| Accounts.ExtractValue | aleo-agent/src/account.rs:249-258 | the field literal of the member; fails when the member is absent, is not a literal, or is not a field |
| Accounts.BackupPlaintextReadsBack | aleo-agent/src/account.rs:220-234 | the backup struct has exactly the members `key` and `nonce`, and each reads back |
| Accounts.DecryptField | aleo-agent/src/account.rs:238-246 | decrypts under the secret, reads `key` and `nonce`, recomputes the blinding and divides it out; FieldRoundTrip states it inverts EncryptField |
| Accounts.FieldRoundTrip | aleo-agent/src/account.rs:209-246 | decrypting with the same secret and domain gives the field back, given that symmetric decryption inverts encryption and the blinding is non-zero |
| Accounts.FromEncryptedKey | aleo-agent/src/account.rs:195-205 | a recovered account is derived from the private key of the recovered seed |
| Accounts.GetEncryptedKey | aleo-agent/src/account.rs:82-84 | the backup of the private key's seed under the fixed domain; KeyBackupRoundTrip states it is recovered whole |
| Accounts.KeyBackupRoundTrip | aleo-agent/src/account.rs:82-84 | an account backed up with `get_encrypted_key` is recovered whole by `from_encrypted_key` with the same secret, given that a key is recovered from its own seed |
| Chain.CheckBlockRange | aleo-agent/src/chain.rs:89-96 | fails exactly when `start >= end` or `end - start > 50`, with the first message before the second; a width of exactly 50 passes |
| Chain.GetBlocksInRange | aleo-agent/src/chain.rs:89-109 | no request when a guard fails; otherwise the answer to `{base}/{network}/blocks?start={s}&end={e}` |
| Chain.BlocksUrlDeterminesRange | aleo-agent/src/chain.rs:98-102 | different windows are different requests |
| Chain.FindTransitionUrl | aleo-agent/src/chain.rs:252-256 | the URL `{base}/{network}/find/transitionID/{id}` of the spent lookup |
| Chain.FindTransitionUrlInjective | aleo-agent/src/chain.rs:252-256 | different ids are different lookups on the same node and network |
| Chain.FindTransitionId | aleo-agent/src/chain.rs:248-261 | the node's answer for the lookup URL of the id |
| Chain.TransactionUrl | aleo-agent/src/chain.rs:118-124 | the formatted URL with every `"` removed |
| Chain.ConfirmedTransactionUrl | aleo-agent/src/chain.rs:138-144 | likewise for the confirmed transaction URL |
| Chain.BlockHashUrl | aleo-agent/src/chain.rs:225-234 | likewise for the block hash URL |
| Chain.QuoteStrippingIsPiecewise | aleo-agent/src/chain.rs:119-124 | the stripping covers base URL and network too, and keeps everything else in order |
| Chain.QuotedTransactionId | aleo-agent/src/chain.rs:118-124 | an id passed with its JSON quotes reaches the node bare |
| Chain.StripQuotedId | aleo-agent/src/chain.rs:119-124 | a quoted id after a quote-free prefix reaches the node as the prefix and the bare id |
| Chain.ErrorDetail | aleo-agent/src/chain.rs:188-193 | a transport error gives `({err})`; a status error gives `(status code {code}: {body:?})` when its body reads, and otherwise the read error |
| Chain.BroadcastTransaction | aleo-agent/src/chain.rs:174-216 | success returns the body unchanged. An unreadable success body gives `❌ Transaction response was malformed {e}`. A transport error gives `❌ {action} to {url}: ({err})`. A status error whose body cannot be read passes on that read error |
| Chain.StatusErrorMessage | aleo-agent/src/chain.rs:188-199 | a status error names the kind, URL, code and `{:?}` of the body, which can be read back |
| Chain.StatusErrorMessageInjective | aleo-agent/src/chain.rs:190 | two status errors of the same kind give the same message only for the same code and body |
| Chain.FailureMessagesDifferByKind | aleo-agent/src/chain.rs:195-213 | the kind of a failed transaction can be told from its message |
| Format.Decimal | aleo-agent/src/agent.rs:512 | `{}` of a number is its decimal digits, with no leading zero |
| Format.DecimalRoundTrip | aleo-agent/src/agent.rs:512 | reading back the printed digits gives the number |
| Format.U64LiteralRoundTrip | aleo-agent/src/agent.rs:512 | `"{n}u64"` parses to n, so the `unwrap` in `to_inputs` never panics |
| Format.ParseU64Literal | aleo-agent/src/agent.rs:512 | `Value::from_str` on the digits-then-`u64` form that `format!("{}u64")` produces: succeeds only on decimal digits followed by `u64`, giving their value |
| Format.DecimalInjective | aleo-agent/src/agent.rs:512 | two numbers print the same exactly when they are equal |
| Format.DebugString | aleo-agent/src/chain.rs:190 | Rust's `{:?}` of a string: quoted, with the short escapes and `\u{..}` for control characters |
| Format.ControlEscapeExample | aleo-agent/src/chain.rs:190 | BEL prints as `"\u{7}"` and ESC `[` as `"\u{1b}["` |
| Format.DebugStringRoundTrip | aleo-agent/src/chain.rs:190 | `{:?}` of a string, control characters included, determines the string |
| Format.EscapeRoundTrip | aleo-agent/src/chain.rs:190 | unescaping what `{:?}` escaped, `\u{..}` escapes included, gives the string back |
| Format.RemoveChar | aleo-agent/src/chain.rs:124 | `replace('"', "")` removes every quote and keeps the rest in order |
| Format.RemoveCharIdempotent | aleo-agent/src/chain.rs:124 | stripping twice is stripping once |
| IndexMaps.Insert | aleo-agent/src/program.rs:258 | an insert keeps the map valid: each key once, with one value |
| IndexMaps.Empty | aleo-agent/src/program.rs:250 | `IndexMap::new()` is valid and has no keys |
| IndexMaps.InsertKeepsPositions | aleo-agent/src/program.rs:258 | a present key keeps its index and gets the new value; a new key is appended; other keys keep their values |
| IndexMaps.InsertFromKeys | aleo-agent/src/program.rs:254-259 | inserting a map's entries adds exactly their keys |
| IndexMaps.InsertFromKeepsPrefix | aleo-agent/src/program.rs:254-259 | the keys already present stay in front, in order |
| IndexMaps.InsertAllKeys | aleo-agent/src/program.rs:254-259 | the merged keys are the union, the old ones in front |
| IndexMaps.InsertAll | aleo-agent/src/program.rs:254-259 | inserting every entry of a valid map, in its order, keeps the map valid |
| IndexMaps.InsertFromValues | aleo-agent/src/program.rs:254-259 | after the merge, an inserted key has the inserted value; any other key keeps its old value |
| IndexMaps.ReinsertExample | aleo-agent/src/program.rs:258 | re-inserting a key keeps its first position and replaces its value |
| Programs.ProgramPairs | aleo-agent/src/program.rs:146-148 | exactly the record pairs of the transitions of the manager's program |
| Programs.KeptPairs | aleo-agent/src/program.rs:149-166 | keeps an owned pair, still encrypted; with `unspent_only`, also needs a derived serial number and a failed lookup |
| Programs.ProgramRecords | aleo-agent/src/program.rs:117-171 | the reference result of `get_program_records` and the windows it requests; the ProgramRecords lemmas below state its properties |
| Programs.ProgramRecordsWindows | aleo-agent/src/program.rs:128-170 | requests every aligned window (no early stop), each passing the guard; on success it returns their kept pairs in window order |
| Programs.ProgramRecordsFailure | aleo-agent/src/program.rs:142-144 | a failure is the error of the last requested window, all earlier ones having succeeded |
| Programs.ProgramRecordsMembers | aleo-agent/src/program.rs:142-166 | a result holds exactly the kept pairs of the program's transitions in the windows |
| Programs.KeptPairsIgnoresLookups | aleo-agent/src/program.rs:161-163 | without `unspent_only`, no transition lookup affects the result |
| Programs.WindowWithoutLookups | aleo-agent/src/program.rs:142-166 | without `unspent_only`, what a window gives does not depend on the transition lookups |
| Programs.ProgramManager.constructor | aleo-agent/src/program.rs:27-29 | the manager holds the agent and the program id |
| Programs.ProgramManager.GetProgramRecords | aleo-agent/src/program.rs:117-171 | the loop returns the model's result and requested windows |
| Programs.ProgramUrlInjective | aleo-agent/src/program.rs:230-233 | the program URL, on the default node and network, determines the program id |
| Programs.ImportRankBelow | aleo-agent/src/program.rs:252-253 | on an acyclic import graph, the recursion goes down |
| Programs.AddImport | aleo-agent/src/program.rs:254-263 | one import's step keeps the map valid |
| Programs.Resolve | aleo-agent/src/program.rs:247-266 | the resolved map is valid |
| Programs.ReachHasImports | aleo-agent/src/program.rs:251 | every direct import is among the ids reached |
| Programs.ReachFromHasImports | aleo-agent/src/program.rs:251 | every remaining direct import is among the ids reached from it |
| Programs.ResolveFrom | aleo-agent/src/program.rs:251-264 | the rest of the loop, from one import on, keeps the map valid |
| Programs.InsertOrdered | aleo-agent/src/program.rs:263 | inserting the chain's program for a key keeps the map dependency-ordered and true to the chain, when a new key's imports are present |
| Programs.AddImportOrdered | aleo-agent/src/program.rs:254-263 | an import's nested imports, then the import, keep the map dependency-ordered and true to the chain |
| Programs.AddImportKeys | aleo-agent/src/program.rs:254-263 | an import's step adds its own id and the nested ids, keeping earlier keys in front |
| Programs.ResolveFromKeys | aleo-agent/src/program.rs:251-264 | the rest of the loop adds exactly the ids reached from the remaining imports, keeping the keys found so far in front |
| Programs.ResolveKeys | aleo-agent/src/program.rs:247-266 | the keys of the result are exactly the ids the program reaches |
| Programs.ResolveFromOrdered | aleo-agent/src/program.rs:251-264 | the rest of the loop keeps the map dependency-ordered and true to the chain |
| Programs.ResolveOrdered | aleo-agent/src/program.rs:247-266 | each program in the result comes after its own imports, and each is the chain's program for its id |
| Programs.ResolveFails | aleo-agent/src/program.rs:252-253 | resolution fails exactly when the chain lacks a program the search reaches |
| Programs.ResolveSound | aleo-agent/src/program.rs:247-266 | keys are exactly the reached ids, dependency-first, as the chain gives them; failure happens exactly when a reached id is missing on chain |
| Programs.ResolveFromFails | aleo-agent/src/program.rs:252-253 | the rest of the loop fails exactly when some id it reaches is missing on chain |
| Programs.GetImportProgramsFromChain | aleo-agent/src/program.rs:247-266 | the nested loops return the model's result |
| Programs.DiamondExample | aleo-agent/src/program.rs:254-263 | with two imports sharing one, the shared one is inserted twice with no error and keeps its first position: base, left, right |
| Programs.WithoutCredits | aleo-agent/src/program.rs:295-303 | the programs the loop adds, in map order; never longer than its input |
| Programs.AddImports | aleo-agent/src/program.rs:295-303 | the loop over the imports; on success the VM only grows, by at most one program per import, keeping what it held in front |
| Programs.WithoutCreditsMembers | aleo-agent/src/program.rs:298-300 | the filter keeps exactly the programs that are not `credits.aleo` |
| Programs.AddImportsOk | aleo-agent/src/program.rs:295-303 | the loop adds the programs except `credits.aleo`, in map order |
| Programs.AddImportsFails | aleo-agent/src/program.rs:297-303 | the loop fails exactly when the VM refuses one of the programs, given those before it |
| Programs.InitializedVm | aleo-agent/src/program.rs:288-309 | succeeds only when the store opens and resolution succeeds, and the program itself is the last one loaded |
| Programs.InitializedVmContents | aleo-agent/src/program.rs:288-309 | the VM holds the resolved imports except `credits.aleo`, in order, then the program; those are exactly the chain's programs for the reached ids; a VM accepting all fails only when the store or resolution does |
| Programs.InitializeVm | aleo-agent/src/program.rs:288-309 | the loop returns the model's result |
| Builder.DefaultBuilder | aleo-agent/src/builder.rs:14-22 | `DEFAULT_BASE_URL`, `DEFAULT_TESTNET` and the account of seed 0 (also what `Agent::builder` returns, agent.rs:38-40) |
| Builder.WithUrl | aleo-agent/src/builder.rs:29-32 | only the URL is replaced |
| Builder.WithNetwork | aleo-agent/src/builder.rs:34-37 | only the network is replaced |
| Builder.WithAccount | aleo-agent/src/builder.rs:39-42 | only the account is replaced |
| Builder.LastCallWins | aleo-agent/src/builder.rs:29-42 | the last call for a field wins |
| Builder.CallsCommute | aleo-agent/src/builder.rs:29-42 | calls for different fields commute |
| Builder.AllSetForgetsStart | aleo-agent/src/builder.rs:29-42 | once all three fields are set, the starting builder does not matter |
| Builder.Build | aleo-agent/src/builder.rs:25-27 | a new agent with the builder's URL, network and account |

## Left out

- HTTP and JSON decoding are the node, a parameter. Every request is a URL whose decoded answer is given. `ureq` transport details and the messages of JSON parse errors are not modelled. A failed request is an `Err` with some message.
- The public balance, transaction and block queries, `get_mapping_value`, `get_program_mappings`, `execute_program`, `deploy.rs` and `Agent::program` are not modelled. They are network or VM calls with no local logic, and `Agent::program` parses an id that is already a string here.
- The snarkVM operations are uninterpreted functions. This covers hashing, the domain separators, symmetric encryption, record decryption, ownership, serial numbers and key derivation. `sign`/`verify` are left out.
- The VM's `execute`, `deploy` and `add_program` are left out. `transfer` is modelled up to the execution request it would make. `initialize_vm` takes the outcome of opening the store and VM, and the VM's acceptance of each program, as parameters.
- Randomness (`thread_rng`, `from_entropy`) is a parameter. The backup nonce is a parameter too.
- `println!` progress output is not modelled.
- `Credits::credits` uses floating point and is not modelled.
- `load_program_from_path` touches the file system and is not modelled.
- Agents.UnspentRecords: the running total is an unbounded `nat`. The u64 overflow of `total_gates +=` is not modelled, because a sum of record amounts above 2^64 is not a case the source handles.
- Agents.Agent.ScanRecords and Programs.ProgramManager.GetProgramRecords require `end + (50 - end % 50)` to fit in a `u32`. Above that the source overflows.
- Programs.Resolve requires an acyclic import graph, stated by a rank that decreases along imports. On a cycle the source recurses without end, because its circular-dependency checks build an error and drop it. Those checks are not modelled, since they change nothing.
- Programs.ResolveOrdered: the chain is assumed to serve programs under any id. The model does not assume that a program's own id equals the id it was requested under, so dependency order is stated over the map's keys.
- Format.EscapeChar: `{:?}` escapes C0 controls, DEL and C1 controls as Rust does. It does not escape the other non-printable Unicode characters, or the grapheme extenders that Rust also writes as `\u{..}`, because that needs Unicode's property tables.
- Accounts.Default requires that the account of seed 0 can be made. The panic of the `unwrap` in `Account::default` (account.rs:32) is not modelled.
- Agents.Agent.Default requires the same, since `Agent::default` uses `Account::default`. The panic is not modelled.
- Builder.DefaultBuilder requires the same, since `AgentBuilder::default` uses `Account::default`. The panic is not modelled.
- Agents.RecipientInput: the text form of an address and its parse are uninterpreted. That an address's text parses back to it is a stated assumption (`AddressTextRoundTrip`). Without it, the model keeps the panic.
- Agents.AmountInput: `Value::from_str` on the amount text is modelled by Format.ParseU64Literal, on the one form the source builds. `_` separators and the other literal types it accepts are not modelled.
