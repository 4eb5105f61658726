# srt-processor core, modelled in Dafny

srt-processor is a Streamlit application. It receives an SRT (Secure Reliable
Transport) stream with `srt-live-transmit`, or takes an uploaded packet capture and
runs `get-traffic-stats` over it, and then shows the results. Beneath the user
interface and the subprocess plumbing sit several small, sequential pieces. This
project models those pieces and proves what they promise:

- **Endpoint scraping** (`EndpointPattern`, `Managers.ExtractConnectedIpPort`,
  `SrtManager.ExtractIpPort`). The regular expression `(\d+\.\d+\.\d+\.\d+):(\d+)`
  is given a declarative meaning, `ShapeAt`: cut positions in the text, where every
  digit run is non-empty and the greedy port run is maximal. A scanner implements
  `re.search` (`Search`) and `re.findall` (`FindAll`). It is proved sound and
  complete: it finds the leftmost match, and no match starts before it.
- **Capture-file validation** (`TcpDumpManager.ValidatePcapFile`). The first four
  bytes must be one of the libpcap file-header magic numbers, in microsecond or
  nanosecond resolution and either byte order (section 4 of draft-ietf-opsawg-pcap),
  or the pcapng Section Header Block type `0x0A0D0D0A` (section 4.1 of
  draft-ietf-opsawg-pcapng).
- **ffprobe decisions** (`Managers.CheckForValidMpegTs`, `Managers.ShowMpegTsPrograms`).
  The probe's standard output is abstracted as "parsed JSON object" or "unparsable".
- **Process handles and connection latches.** `ProcessManager`,
  `SrtManager.SrtProcessManager` and `TcpDumpManager.LibTcpDumpManager` are classes
  whose methods update their fields in place. Each background `monitor_*` thread
  becomes a method that consumes the finite trace of what the thread would observe.
  Both connection monitors share one latch specification, `Processes.Settle` /
  `Processes.Latches`.
- **Output buffers** (`monitor_process_output`/`get_output`, `redirect_output_to_file`,
  and the two `get_output` trimmers). These are built on a model of `readline`
  (`Text.Lines`).
- **Toolbox helpers**: the multi-value dictionary insert and the download file name.
- **The app's SRT countdown loop** (`App.SrtSession`): the submitted form, the
  countdown, the one-shot connected latch and the endpoint notice.

Inputs that the program reads from the outside world are parameters of the model:
- the sequence of `readline` results from a child's stdout;
- the per-tick observations of a monitor thread (whether the process is alive, the
  size of the stats file or the text of the log, `None` when the file is missing);
- the uploaded file's bytes;
- the parsed output of ffprobe;
- the value `get_connection_status()` returns at each tick of the app.

The process table is abstracted as `NoProcess | Running | Exited`.

## Model

| member | source | states |
|---|---|---|
| Text.OccursFrom | srt_process_manager.py:39 | `re.search(r"managed", logs)` succeeds iff the word occurs at some index of the text |
| Text.Decimal | srt_process_manager.py:15 | an integer is formatted as a non-empty run of digits with no leading zero |
| Text.DecimalRoundTrip | srt_process_manager.py:15 | the formatted integer parses back to itself, so the command embeds the exact port and timeout |
| Text.ConcatAppend | srt_process_manager.py:54-55 | joining two lists of lines equals joining each and concatenating, so appended lines extend `"".join(output)` |
| Text.LineEnd | process_manager.py:88 | the first line ends just after the first newline, or at the end of the text when there is none |
| Text.Lines | process_manager.py:87-89 | `readlines()` splits a text into lines whose concatenation is the text; every line but the last ends in a newline, and none is empty |
| Text.FirstLineOf | libtcpdump_process_manager.py:36-37 | when a file starts with a newline-terminated line, `next(results)` returns exactly that line, and the remaining lines are the lines of the rest of the file |
| Text.LinesOfConcat | process_manager.py:102-105 | reading back a file written as newline-terminated lines yields exactly those lines |
| Text.DropLinesSuffix | process_manager.py:89 | the lines dropped followed by the joined remaining lines give back the whole file |
| Text.DropLinesOfConcat | process_manager.py:87-91 | for a file written line by line, dropping n lines yields the join of the written lines after the n-th |
| Processes.StdoutLines | srt_process_manager.py:30 | `iter(readline, "")` yields the reads before the first empty string: a prefix of the reads with no empty element, stopping exactly at the first `""` |
| Processes.Settle | srt_process_manager.py:36-42 | a monitor loop stops at the first poll that is not "still waiting", and every earlier poll was waiting |
| Processes.SettleAt | process_manager.py:160-164 | the first non-waiting poll is the index where the loop stops |
| Processes.LatchesIff | srt_process_manager.py:36-41 | the flag is latched iff some poll establishes the connection and every earlier poll was waiting |
| Processes.SettleStable | process_manager.py:160-164 | observations after the loop has stopped change neither where it stopped nor whether it latched |
| EndpointPattern.GroupsWellFormed | srt_process_manager.py:58 | every match's address is four non-empty digit runs joined by dots, and its port is a non-empty digit run |
| EndpointPattern.RunEndSpec | process_manager.py:174 | a greedy `\d+` run ends at the first non-digit (or the end of the text), and every character before it is a digit |
| EndpointPattern.RunEndAt | process_manager.py:174 | a digit run followed by a non-digit is exactly the run the greedy `\d+` consumes |
| EndpointPattern.DigitsThenSpec | process_manager.py:174 | what the scanner takes for one address group is a non-empty digit run |
| EndpointPattern.DigitsThenAt | process_manager.py:174 | a non-empty digit run followed by the dot or colon is found by the scanner's group step |
| EndpointPattern.ScanAt | process_manager.py:174 | one match attempt at a fixed index: a match it reports starts there, and its dots, colon and end follow in order inside the text |
| EndpointPattern.ScanSound | process_manager.py:174 | a match the scanner reports at index i has the pattern's shape at i |
| EndpointPattern.ScanFinds | process_manager.py:174 | whenever the pattern's shape occurs at i, the scanner reports exactly that match at i |
| EndpointPattern.ScanFailsOnlyWithoutMatch | process_manager.py:174 | the scanner fails at i only when no match starts at i |
| EndpointPattern.Search | process_manager.py:178 | `re.search` returns a match at or after the start with no match starting earlier, or none when the text holds no match |
| EndpointPattern.FindAll | srt_process_manager.py:61 | every match `re.findall` returns has the pattern's shape and starts at or after the search start |
| EndpointPattern.FindAllLeftmost | srt_process_manager.py:61 | each match is the leftmost one at or after the end of the previous match, and no match starts after the last one ends |
| Managers.ProcessManager.constructor | process_manager.py:12-20 | a new manager holds no process |
| Managers.ProcessManager.CheckIfRunning | process_manager.py:22-32 | false without a process; otherwise true iff the process has not exited |
| Managers.ProcessManager.StopProcess | process_manager.py:34-45 | terminate is sent only when the process is running; otherwise nothing happens |
| Managers.ProcessManager.Launch | process_manager.py:71-77 | `Popen` leaves a running process in `self.process` |
| Managers.LibTcpDumpManager.constructor | process_manager.py:49-57 | the subclass starts with no process; the results file holds whatever it held before |
| Managers.LibTcpDumpManager.StartProcess | process_manager.py:59-78 | runs `get-traffic-stats --overwrite --side rcv pcaps/<name>` and leaves the process running |
| Managers.LibTcpDumpManager.RedirectOutputToFile | process_manager.py:93-106 | the results file is overwritten with the child's stdout lines in read order, or left empty when there is no process |
| Managers.LibTcpDumpManager.GetOutput | process_manager.py:80-91 | returns the file after its first two lines, and `""` when it has at most two lines |
| Managers.SrtProcessManager.constructor | process_manager.py:110-118 | `connection_established` starts False and no process exists |
| Managers.SupervisorCommand | process_manager.py:136-140 | the command line starts with `srt-live-transmit-v<version>` and ends by redirecting the stream into `srt/received.ts` |
| Managers.SupervisorCommandFields | process_manager.py:136-140 | after the version and the fixed options come `-to:<timeout> srt://<ip>:<port>?mode=<mode>`, and the numbers read back as the given timeout and port |
| Managers.SrtProcessManager.StartProcess | process_manager.py:120-149 | the supervisor command embeds version, timeout, ip, port and mode, and the process is running |
| Managers.SrtProcessManager.MonitorConnectionStatus | process_manager.py:151-164 | the flag becomes True iff it already was or the first poll that is not waiting is alive with a non-empty stats file; it is never reset |
| Managers.ExtractConnectedIpPort | process_manager.py:166-183 | the error string iff the log holds no match; otherwise exactly `ip:port` of the leftmost match |
| Managers.MatchText | process_manager.py:181 | `group(1) + ":" + group(2)` is the matched text itself, and it never equals the error string |
| Managers.AnyDigitRunsAccepted | process_manager.py:174-181 | any four digit runs and a digit port, followed by a non-digit or the end of the log, are reported verbatim; octets are not range-checked |
| Managers.CheckForValidMpegTs | process_manager.py:194-236 | True iff `format.format_name == "mpegts"`; False when parsing succeeds otherwise; None iff the output does not parse |
| Managers.ShowMpegTsPrograms | process_manager.py:238-278 | the whole parsed object iff it has a top-level `"programs"` key; otherwise None |
| SrtManager.StartCommand | srt_process_manager.py:15 | the command line starts with the fixed `srt-live-transmit` statistics and logging options and ends by redirecting the stream into `srt/received.ts` |
| SrtManager.StartCommandFields | srt_process_manager.py:14-15 | the command holds `-to:<timeout> srt://0.0.0.0:<port>?mode=<mode>` right after the fixed options, and the numbers read back as the given port and timeout |
| SrtManager.SrtProcessManager.constructor | srt_process_manager.py:8-12 | no process, empty output and `connection_established` False |
| SrtManager.SrtProcessManager.StartProcess | srt_process_manager.py:14-26 | starts the receiver with the start command; nothing else changes |
| SrtManager.SrtProcessManager.MonitorProcessOutput | srt_process_manager.py:28-32 | appends each stdout line in read order, so `get_output` grows by their concatenation; nothing happens without a process |
| SrtManager.SrtProcessManager.MonitorConnectionStatus | srt_process_manager.py:34-42 | the flag becomes True iff it already was or, at the first poll that is not waiting, the process is alive and the log contains `managed`; it is never reset |
| SrtManager.SrtProcessManager.GetOutput | srt_process_manager.py:54-55 | the recorded lines joined into one text; when every recorded line ends in a newline, splitting the text into lines gives exactly the recorded lines back |
| SrtManager.SrtProcessManager.CheckIfRunning | srt_process_manager.py:44-47 | false when `process` is None; otherwise true iff it has not exited |
| SrtManager.SrtProcessManager.StopProcess | srt_process_manager.py:49-52 | terminates and waits whenever a process object exists, with no liveness check |
| SrtManager.ExtractIpPort | srt_process_manager.py:57-65 | the set of `(ip, port)` pairs of the findall matches is empty exactly when `re.search` finds no match in the log |
| SrtManager.ExtractIpPortSpec | srt_process_manager.py:57-65 | every pair is a dotted quad with an all-digit port; the result is empty iff the log has no match; it contains the leftmost match's pair |
| TcpDumpManager.BigEndian32 | libtcpdump_process_manager.py:42-48 | a 32-bit magic number spelled as four bytes, most significant first |
| TcpDumpManager.LittleEndian32 | libtcpdump_process_manager.py:42-48 | a 32-bit magic number spelled as four bytes, least significant first |
| TcpDumpManager.ValidatePcapFile | libtcpdump_process_manager.py:41-61 | True iff the file is readable and its first four bytes are a libpcap magic (either resolution, either byte order) or the pcapng block type; an unreadable file gives False |
| TcpDumpManager.OnlyMagicMatters | libtcpdump_process_manager.py:51 | bytes after the first four never affect the result |
| TcpDumpManager.ShortFileRejected | libtcpdump_process_manager.py:51-58 | a file shorter than four bytes is rejected |
| TcpDumpManager.LibTcpDumpManager.constructor | libtcpdump_process_manager.py:6-8 | no process before `process_tcpdump` |
| TcpDumpManager.LibTcpDumpManager.ProcessTcpdump | libtcpdump_process_manager.py:10-20 | runs the fixed `get-traffic-stats` command and leaves the process running |
| TcpDumpManager.LibTcpDumpManager.RedirectOutputToFile | libtcpdump_process_manager.py:22-27 | the results file is overwritten with the stdout lines in read order, or left empty without a process |
| TcpDumpManager.LibTcpDumpManager.CheckIfRunning | libtcpdump_process_manager.py:29-33 | false before a process is set; otherwise true iff it has not exited |
| TcpDumpManager.LibTcpDumpManager.GetOutput | libtcpdump_process_manager.py:35-39 | StopIteration iff the file is empty; otherwise the first line followed by the result is the whole file |
| Toolbox.AddValue | toolbox.py:123-134 | an absent key gets the value; a list gets the value appended; a scalar becomes `[old, value]`; other keys are unchanged; the key set grows by one iff the key was absent |
| Toolbox.Dict.constructor | toolbox.py:123 | the dictionary holds the given entries |
| Toolbox.AddDictValue | toolbox.py:123-134 | the dictionary is updated in place to the insert described by `AddValue` |
| Toolbox.AddValuesToList | toolbox.py:130-131 | repeated adds to a key holding a list append the values in order |
| Toolbox.RepeatedAdds | toolbox.py:127-134 | two or more scalar adds to a fresh key leave the list of all values in insertion order; other keys are unchanged |
| Toolbox.DownloadFileName | toolbox.py:98 | `nso_` + lower-cased name + `.csv` with spaces turned into `_`; it contains no space |
| App.SubmittedFormFields | app.py:171-189 | the widgets' bounds (port 9000-9100, timeout 30-600) make the command's port four digits wide and its timeout two or three digits wide |
| App.SubmittedMode | app.py:155-158 | the only mode the radio offers, lower-cased, is `listener` |
| App.FirstTrue | app.py:206 | the first tick at which the status is True, or the number of ticks when there is none |
| App.ShowConnected | app.py:207-211 | IndexError iff `extract_ip_port` is empty; otherwise one notice with a pair from that result |
| App.SrtSession | app.py:151-216 | the command uses `listener`; the counter renders T, T-1, ... once per tick and ends at 0; status is polled up to and including the first True and never after; `srt_connected` latches exactly then; at most one notice, drawn from that tick's log; IndexError iff that log yields no endpoint |

## Left out

- Threads, `time.sleep`, `Popen`, `poll()`, `terminate()`, `wait()` and real file I/O. A monitor thread's observations are a finite trace, and the process table is `NoProcess | Running | Exited`.
- A missing stats or log file: `os.stat` and `open` raise, which ends the monitor thread with the flag unchanged. The model follows the code (`ReadFailed`).
- Managers.SrtProcessManager.MonitorConnectionStatus, SrtManager.SrtProcessManager.MonitorConnectionStatus: these require a process handle, because `self.process.poll()` raises AttributeError on None and the thread then dies; the thread is only started right after `Popen`.
- `add_network_emulation` and `clear_network_emulation` (process_manager.py:280-336) are left out: they are thin wrappers around `tc`.
- Floating-point numbers in ffprobe's JSON are left out. `Json` has integer numbers only, so a float field of the object `ShowMpegTsPrograms` returns cannot be represented; no decision of the model depends on a number's value.
- The `ffprobe` invocations are left out. `subprocess.run` has no `check=True`, so the `CalledProcessError` handlers never fire, and only a JSON decode failure produces None.
- Managers.CheckForValidMpegTs: when `"format"` holds a value that is not an object, the model answers `Some(false)`. Python answers False only for a string or list that does not contain `"format_name"`. It raises TypeError for a number, boolean or null, and for a string or list that does contain `"format_name"`. A top level that is not an object cannot be represented, because `ProbeOutput.Parsed` holds an object.
- Managers.ShowMpegTsPrograms: a top level that is not an object cannot be represented. Python returns such a string or list when it contains `"programs"`, and raises TypeError for a number, boolean or null.
- Managers.SrtProcessManager.GetConnectionStatus, SrtManager.SrtProcessManager.GetConnectionStatus: these plain getters of the flag carry no contract.
- The Streamlit UI, charts, pandas and float metrics, the public-IP fetch, file cleanup and loggerfactory.py are left out. They are I/O or floating point.
- Python's Unicode `\d` and `str.lower()` are left out. Digits are the ASCII digits, and lower-casing maps ASCII letters.
- Universal-newline translation when reading files is left out. Lines end in `\n`.
- Toolbox.AddDictValue: list aliasing is not modelled. Python appends to the list object stored in the dictionary, so other references to that list see the change; the model stores values.
- SrtManager.ExtractIpPort returns a set. Python's `list(set)` has an unspecified order, and the app takes element 0 of it; the model takes an arbitrary element.
- Repeated calls on unchanged log text return the same value. Every extractor is a function of the text, so this needs no separate lemma.
- App.SrtSession: strictly decreasing rendering is not a separate clause. It follows from `rendered[i] == T - i`.
- The base class `ProcessManager` in process_manager.py is shared through composition: each subclass holds a `base` manager.
- The app's calls across files that do not match their definitions (`LibTcpDumpManager(_logger)`, `process_tcpdump(file)`) are left out, and the pcap branch of app.py is not part of this model.
