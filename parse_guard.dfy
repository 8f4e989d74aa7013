/**
 * The guard the integration installs in front of pydeako's message parser
 * (custom_components/deako/__init__.py, `overwrite_parse_data_implementation`).
 *
 * Each incoming chunk first clears a message buffer that holds nothing but
 * whitespace, then counts consecutive whitespace-only chunks and asks the host
 * to reload the config entry once more than `MaxEmptyMessages` arrived in a
 * row, and finally hands the chunk to the parser it replaced. The replacement
 * is installed on the connection class once; the first installation wins.
 */
module ParseGuard {
  import opened Python
  import opened Utf8

  /** Consecutive whitespace-only messages tolerated before a reload is requested. */
  const MaxEmptyMessages: nat := 1000

  // ---------------------------------------------------------------------------
  // What one call of the replacement parser decides
  // ---------------------------------------------------------------------------

  /** The message buffer as the replacement parser leaves it before delegating. */
  function GuardedBuffer(buffer: Option<string>): (r: Option<string>)
    ensures buffer.None? ==> r == None
    ensures buffer.Some? && AllSpace(buffer.value) ==> r == Some("")
    ensures buffer.Some? && !AllSpace(buffer.value) ==> r == buffer
  {
    if buffer.Some? && Strip(buffer.value) == "" && |buffer.value| > 0 then Some("") else buffer
  }

  /** The counter value before a message, with a missing count read as zero. */
  function Previous(counter: Option<nat>): nat {
    if counter.Some? then counter.value else 0
  }

  /** The empty-message counter after the decoded message `raw`. */
  function NextCounter(counter: Option<nat>, raw: string): (r: nat)
    ensures AllSpace(raw) ==> r == Previous(counter) + 1
    ensures !AllSpace(raw) ==> r == 0
  {
    if Strip(raw) == "" then (if counter.None? then 0 else counter.value) + 1 else 0
  }

  /** Whether the decoded message `raw` makes the replacement parser schedule a reload. */
  function RequestsReload(counter: Option<nat>, raw: string): (r: bool)
    ensures r <==> AllSpace(raw) && Previous(counter) >= MaxEmptyMessages
  {
    Strip(raw) == "" && NextCounter(counter, raw) > MaxEmptyMessages
  }

  /** One call of the parser that was replaced: the buffer it saw and the bytes it got. */
  datatype Delegation = Delegation(buffer: Option<string>, data: seq<Byte>)

  /**
   * A pydeako `_Connection` instance as far as the replacement parser touches
   * it: its message buffer and its empty-message counter. The ghost fields log
   * the effects the model does not carry out: calls of the original parser
   * and reloads scheduled on the host.
   */
  class Session {
    var messageBuffer: Option<string>
    var emptyMessageCounter: Option<nat>
    ghost var delegated: seq<Delegation>
    ghost var reloads: seq<string>

    constructor (buffer: Option<string>, counter: Option<nat>)
      ensures messageBuffer == buffer && emptyMessageCounter == counter
      ensures delegated == [] && reloads == []
    {
      messageBuffer := buffer;
      emptyMessageCounter := counter;
      delegated := [];
      reloads := [];
    }

    /**
     * `new_parse_data(self, data)`, installed on behalf of the config entry
     * `entryId`. A chunk that is not valid UTF-8 raises before anything but the
     * buffer guard has happened.
     */
    method NewParseData(data: seq<Byte>, entryId: string) returns (result: Result<()>)
      modifies this
      ensures messageBuffer == GuardedBuffer(old(messageBuffer))
      ensures Decode(data).None? ==>
        && result == Err(UnicodeDecodeError)
        && emptyMessageCounter == old(emptyMessageCounter)
        && delegated == old(delegated)
        && reloads == old(reloads)
      ensures Decode(data).Some? ==>
        var raw := Decode(data).value;
        && result == Ok(())
        && emptyMessageCounter == Some(NextCounter(old(emptyMessageCounter), raw))
        && reloads == old(reloads) + (if RequestsReload(old(emptyMessageCounter), raw) then [entryId] else [])
        && delegated == old(delegated) + [Delegation(messageBuffer, data)]
    {
      if messageBuffer.Some? && Strip(messageBuffer.value) == "" && |messageBuffer.value| > 0 {
        messageBuffer := Some("");
      }
      var decoded := Decode(data);
      if decoded.None? {
        return Err(UnicodeDecodeError);
      }
      CountMessage(decoded.value, entryId);
      delegated := delegated + [Delegation(messageBuffer, data)];
      result := Ok(());
    }

    /** The part of `new_parse_data` that keeps the empty-message counter. */
    method CountMessage(raw: string, entryId: string)
      modifies this`emptyMessageCounter, this`reloads
      ensures emptyMessageCounter == Some(NextCounter(old(emptyMessageCounter), raw))
      ensures reloads == old(reloads) + (if RequestsReload(old(emptyMessageCounter), raw) then [entryId] else [])
    {
      if Strip(raw) == "" {
        if emptyMessageCounter.None? {
          emptyMessageCounter := Some(0);
        }
        emptyMessageCounter := Some(emptyMessageCounter.value + 1);
        if emptyMessageCounter.value > MaxEmptyMessages {
          reloads := reloads + [entryId];
        }
      } else {
        emptyMessageCounter := Some(0);
      }
    }
  }

  // ---------------------------------------------------------------------------
  // Runs of messages
  // ---------------------------------------------------------------------------

  /** The counter after the decoded messages `msgs`, one call each. */
  function CounterAfter(counter: Option<nat>, msgs: seq<string>): Option<nat>
    decreases |msgs|
  {
    if msgs == [] then counter else CounterAfter(Some(NextCounter(counter, msgs[0])), msgs[1..])
  }

  /** How many reloads the decoded messages `msgs` schedule, one call each. */
  function ReloadsDuring(counter: Option<nat>, msgs: seq<string>): nat
    decreases |msgs|
  {
    if msgs == [] then 0
    else (if RequestsReload(counter, msgs[0]) then 1 else 0)
         + ReloadsDuring(Some(NextCounter(counter, msgs[0])), msgs[1..])
  }

  /**
   * A run of whitespace-only messages counts up from where the counter stood,
   * and every message of the run whose predecessors had already brought the
   * count to `MaxEmptyMessages` schedules a reload: the request does not reset
   * the counter.
   */
  lemma {:induction false} WhitespaceRun(c: nat, msgs: seq<string>)
    requires forall i :: 0 <= i < |msgs| ==> AllSpace(msgs[i])
    ensures CounterAfter(Some(c), msgs) == Some(c + |msgs|)
    ensures ReloadsDuring(Some(c), msgs) ==
      if c + |msgs| <= MaxEmptyMessages then 0
      else if c >= MaxEmptyMessages then |msgs|
      else c + |msgs| - MaxEmptyMessages
    decreases |msgs|
  {
    if msgs != [] {
      var rest := msgs[1..];
      WhitespaceStep(c, msgs[0]);
      WhitespaceRun(c + 1, rest);
      assert CounterAfter(Some(c), msgs) == CounterAfter(Some(c + 1), rest);
      assert ReloadsDuring(Some(c), msgs)
          == (if c >= MaxEmptyMessages then 1 else 0) + ReloadsDuring(Some(c + 1), rest);
    }
  }

  /** One whitespace-only message counts up by one and reloads once the count stood at the limit. */
  lemma WhitespaceStep(c: nat, msg: string)
    requires AllSpace(msg)
    ensures NextCounter(Some(c), msg) == c + 1
    ensures RequestsReload(Some(c), msg) <==> c >= MaxEmptyMessages
  {
  }

  /**
   * After a message with any non-whitespace character, the next
   * `MaxEmptyMessages` whitespace-only messages schedule nothing and each one
   * after them schedules one reload.
   */
  lemma ReloadAfterThreshold(counter: Option<nat>, text: string, msgs: seq<string>)
    requires !AllSpace(text)
    requires forall i :: 0 <= i < |msgs| ==> AllSpace(msgs[i])
    ensures CounterAfter(counter, [text] + msgs) == Some(|msgs|)
    ensures ReloadsDuring(counter, [text] + msgs) ==
      if |msgs| <= MaxEmptyMessages then 0 else |msgs| - MaxEmptyMessages
  {
    assert ([text] + msgs)[1..] == msgs;
    WhitespaceRun(0, msgs);
  }

  /** A counter that was never set behaves as one that stands at zero. */
  lemma {:induction false} MissingCounterIsZero(msgs: seq<string>)
    requires msgs != []
    ensures CounterAfter(None, msgs) == CounterAfter(Some(0), msgs)
    ensures ReloadsDuring(None, msgs) == ReloadsDuring(Some(0), msgs)
  {
    assert NextCounter(None, msgs[0]) == NextCounter(Some(0), msgs[0]);
    assert RequestsReload(None, msgs[0]) == RequestsReload(Some(0), msgs[0]);
  }

  // ---------------------------------------------------------------------------
  // Installing the replacement on the connection class
  // ---------------------------------------------------------------------------

  /**
   * What a `_Connection.parse_data` attribute holds: pydeako's parser, or the
   * replacement, which closes over the config entry it was installed for.
   */
  datatype ParseImpl = OriginalParseData | PatchedParseData(entryId: string)

  /** The class attributes `parse_data` and `__old_parse_data` (absent: None). */
  datatype ClassAttrs = ClassAttrs(parseData: ParseImpl, oldParseData: Option<ParseImpl>)

  const Pristine := ClassAttrs(OriginalParseData, None)

  /** The attributes after installing the replacement for `entryId`. */
  function Install(attrs: ClassAttrs, entryId: string): (r: ClassAttrs)
    ensures r.oldParseData.Some?
    ensures r == attrs <==> attrs.oldParseData.Some?
    ensures attrs.oldParseData.None? ==>
      r.parseData == PatchedParseData(entryId) && r.oldParseData == Some(attrs.parseData)
  {
    if attrs.oldParseData.None? then ClassAttrs(PatchedParseData(entryId), Some(attrs.parseData))
    else attrs
  }

  /** The attributes after one installation per config entry in `entryIds`, in order. */
  function InstallAll(attrs: ClassAttrs, entryIds: seq<string>): (r: ClassAttrs)
    ensures entryIds == [] ==> r == attrs
    ensures entryIds != [] ==> r.oldParseData.Some?
    decreases |entryIds|
  {
    if entryIds == [] then attrs else InstallAll(Install(attrs, entryIds[0]), entryIds[1..])
  }

  /**
   * Either nothing is installed, or the replacement is installed and the saved
   * parser is pydeako's own, so the replacement never delegates to itself.
   */
  predicate WellFormed(attrs: ClassAttrs) {
    attrs == Pristine
    || (attrs.parseData.PatchedParseData? && attrs.oldParseData == Some(OriginalParseData))
  }

  /** Installing a second time changes nothing, whatever entry it is for. */
  lemma InstallIdempotent(attrs: ClassAttrs, first: string, second: string)
    ensures Install(Install(attrs, first), second) == Install(attrs, first)
  {
  }

  lemma InstallKeepsWellFormed(attrs: ClassAttrs, entryId: string)
    requires WellFormed(attrs)
    ensures WellFormed(Install(attrs, entryId))
    ensures Install(attrs, entryId).parseData.PatchedParseData?
  {
  }

  /**
   * However many entries are set up, the class ends up with a single
   * replacement, the one installed for the first entry, in front of pydeako's
   * parser; reloads it schedules therefore always name that first entry.
   */
  lemma {:induction false} FirstInstallationWins(entryIds: seq<string>)
    requires entryIds != []
    ensures InstallAll(Pristine, entryIds) == ClassAttrs(PatchedParseData(entryIds[0]), Some(OriginalParseData))
  {
    var after := Install(Pristine, entryIds[0]);
    InstalledStaysPut(after, entryIds[1..]);
  }

  lemma {:induction false} InstalledStaysPut(attrs: ClassAttrs, entryIds: seq<string>)
    requires attrs.oldParseData.Some?
    ensures InstallAll(attrs, entryIds) == attrs
    decreases |entryIds|
  {
    if entryIds != [] {
      InstalledStaysPut(Install(attrs, entryIds[0]), entryIds[1..]);
    }
  }

  /** pydeako's `_Connection` class object, whose attributes the integration rewrites. */
  class ConnectionClass {
    var parseData: ParseImpl
    var oldParseData: Option<ParseImpl>

    function Attrs(): ClassAttrs
      reads this
    {
      ClassAttrs(parseData, oldParseData)
    }

    ghost predicate Valid()
      reads this
    {
      WellFormed(Attrs())
    }

    constructor ()
      ensures Valid() && Attrs() == Pristine
    {
      parseData := OriginalParseData;
      oldParseData := None;
    }

    /** The guarded installation of `new_parse_data` for the config entry `entryId`. */
    method OverwriteParseDataImplementation(entryId: string)
      requires Valid()
      modifies this
      ensures Valid()
      ensures Attrs() == Install(old(Attrs()), entryId)
      ensures parseData.PatchedParseData?
    {
      if oldParseData.None? {
        oldParseData := Some(parseData);
        parseData := PatchedParseData(entryId);
      }
    }
  }
}
