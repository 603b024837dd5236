/**
 * The voice input of the chat panel (src/components/SpeechRecognition.jsx):
 * the listening toggle and the transcript accumulator driven by the
 * recognizer's `onstart`, `onresult`, `onend` and `onerror` events.
 *
 * The browser recognizer is outside the model: `start()` and `stop()` become
 * a `Request` the toggle returns, and each event is an atomic step on the
 * component state. Writes to the text field are returned as values.
 */
module Speech {
  import opened Wrappers

  /** One entry of `event.results`: the transcript of its first alternative and `isFinal`. */
  datatype SpeechResult = SpeechResult(transcript: string, isFinal: bool)

  /** What a listening control asks of the browser recognizer. */
  datatype Request = Start | Stop | NoRequest

  /** All texts of `rs`, in order. */
  function AllText(rs: seq<SpeechResult>): string {
    if rs == [] then [] else rs[0].transcript + AllText(rs[1..])
  }

  /** The results of `rs` whose `isFinal` flag is `final`, in order. */
  function Only(rs: seq<SpeechResult>, final: bool): seq<SpeechResult> {
    if rs == [] then [] else (if rs[0].isFinal == final then [rs[0]] else []) + Only(rs[1..], final)
  }

  lemma {:induction false} AllTextAppend(a: seq<SpeechResult>, b: seq<SpeechResult>)
    ensures AllText(a + b) == AllText(a) + AllText(b)
  {
    if a != [] {
      assert (a + b)[1..] == a[1..] + b;
      AllTextAppend(a[1..], b);
    } else {
      assert a + b == b;
    }
  }

  lemma {:induction false} OnlyAppend(a: seq<SpeechResult>, b: seq<SpeechResult>, final: bool)
    ensures Only(a + b, final) == Only(a, final) + Only(b, final)
  {
    if a != [] {
      assert (a + b)[1..] == a[1..] + b;
      OnlyAppend(a[1..], b, final);
    } else {
      assert a + b == b;
    }
  }

  /**
   * `finalTranscript`: the texts of `rs` are folded in order, and only the
   * final ones are kept.
   */
  function Finals(rs: seq<SpeechResult>): (s: string)
    ensures s == AllText(Only(rs, true))
  {
    if rs == [] then []
    else
      var last := rs[|rs| - 1];
      assert rs == rs[..|rs| - 1] + [last];
      OnlyAppend(rs[..|rs| - 1], [last], true);
      AllTextAppend(Only(rs[..|rs| - 1], true), Only([last], true));
      Finals(rs[..|rs| - 1]) + (if last.isFinal then last.transcript else [])
  }

  /**
   * `interimTranscript`: the texts of `rs` are folded in order, and only the
   * non-final ones are kept.
   */
  function Interims(rs: seq<SpeechResult>): (s: string)
    ensures s == AllText(Only(rs, false))
  {
    if rs == [] then []
    else
      var last := rs[|rs| - 1];
      assert rs == rs[..|rs| - 1] + [last];
      OnlyAppend(rs[..|rs| - 1], [last], false);
      AllTextAppend(Only(rs[..|rs| - 1], false), Only([last], false));
      Interims(rs[..|rs| - 1]) + (if last.isFinal then [] else last.transcript)
  }

  /** The results an `onresult` event reports as new: those from `resultIndex` on, in order. */
  function Pending(results: seq<SpeechResult>, resultIndex: nat): (r: seq<SpeechResult>)
    ensures |r| == if resultIndex < |results| then |results| - resultIndex else 0
    ensures forall k :: 0 <= k < |r| ==> r[k] == results[resultIndex + k]
  {
    if resultIndex < |results| then results[resultIndex..] else []
  }

  /** Splitting distributes over concatenation of result lists. */
  lemma SplitAppend(a: seq<SpeechResult>, b: seq<SpeechResult>)
    ensures Finals(a + b) == Finals(a) + Finals(b)
    ensures Interims(a + b) == Interims(a) + Interims(b)
  {
    OnlyAppend(a, b, true);
    AllTextAppend(Only(a, true), Only(b, true));
    OnlyAppend(a, b, false);
    AllTextAppend(Only(a, false), Only(b, false));
  }

  /**
   * One more result extends exactly one of the two parts, by its text. This
   * is one unfolding of `Finals` and `Interims`; as a lemma of its own it
   * keeps that unfolding out of the loop proof of `SplitResults`.
   */
  lemma SplitStep(rs: seq<SpeechResult>, r: SpeechResult)
    ensures Finals(rs + [r]) == Finals(rs) + (if r.isFinal then r.transcript else [])
    ensures Interims(rs + [r]) == Interims(rs) + (if r.isFinal then [] else r.transcript)
  {
  }

  /** Filtering by `isFinal` splits the texts into two parts that together hold all their characters. */
  lemma {:induction false} OnlyPartition(rs: seq<SpeechResult>)
    ensures multiset(AllText(Only(rs, true)) + AllText(Only(rs, false))) == multiset(AllText(rs))
  {
    if rs != [] {
      var rest := rs[1..];
      OnlyPartition(rest);
      var f, i := AllText(Only(rest, true)), AllText(Only(rest, false));
      var t := rs[0].transcript;
      assert AllText([rs[0]]) == t;
      assert AllText(rs) == t + AllText(rest);
      if rs[0].isFinal {
        assert Only(rs, true) == [rs[0]] + Only(rest, true);
        assert Only(rs, false) == Only(rest, false);
        AllTextAppend([rs[0]], Only(rest, true));
        assert multiset((t + f) + i) == multiset(t) + multiset(f + i);
      } else {
        assert Only(rs, true) == Only(rest, true);
        assert Only(rs, false) == [rs[0]] + Only(rest, false);
        AllTextAppend([rs[0]], Only(rest, false));
        assert multiset(f + (t + i)) == multiset(t) + multiset(f + i);
      }
    }
  }

  /**
   * The final and interim parts together hold exactly the characters of all
   * the texts, each as often as it occurs there: none is lost or counted twice.
   */
  lemma SplitIsPartition(rs: seq<SpeechResult>)
    ensures multiset(Finals(rs) + Interims(rs)) == multiset(AllText(rs))
    ensures |Finals(rs)| + |Interims(rs)| == |AllText(rs)|
  {
    OnlyPartition(rs);
    assert |Finals(rs) + Interims(rs)| == |multiset(Finals(rs) + Interims(rs))|;
  }

  /** An event that reports only interim results adds nothing to the final part. */
  lemma {:induction false} InterimOnlyAddsNoFinal(rs: seq<SpeechResult>)
    requires forall k :: 0 <= k < |rs| ==> !rs[k].isFinal
    ensures Finals(rs) == [] && Interims(rs) == AllText(rs)
  {
    if rs != [] {
      InterimOnlyAddsNoFinal(rs[1..]);
      SplitAppend([rs[0]], rs[1..]);
      assert [rs[0]] + rs[1..] == rs;
      assert [rs[0]][..0] == [];
    }
  }

  /**
   * The `for` loop of `onresult`: results from `resultIndex` on are split,
   * in order, into the concatenated final texts and the concatenated interim
   * texts.
   */
  method SplitResults(results: seq<SpeechResult>, resultIndex: nat) returns (final: string, interim: string)
    ensures final == Finals(Pending(results, resultIndex))
    ensures interim == Interims(Pending(results, resultIndex))
  {
    final, interim := [], [];
    ghost var pending := Pending(results, resultIndex);
    var i := resultIndex;
    while i < |results|
      invariant resultIndex <= i && i - resultIndex <= |pending|
      invariant final == Finals(pending[..i - resultIndex])
      invariant interim == Interims(pending[..i - resultIndex])
    {
      var text := results[i].transcript;
      if results[i].isFinal {
        final := final + text;
      } else {
        interim := interim + text;
      }
      ghost var k := i - resultIndex;
      assert pending[..k + 1] == pending[..k] + [results[i]];
      SplitStep(pending[..k], results[i]);
      i := i + 1;
    }
    assert pending[..i - resultIndex] == pending;
  }

  /** The state of the `SpeechRecognition` component. */
  class SpeechRecognition {
    /** `recognition` is not null: the browser supplied a recognizer. */
    var hasRecognizer: bool
    var speechSupported: bool
    var isListening: bool
    var isFreshStart: bool
    var transcript: string

    /** The state once the initialising effect has run, with or without browser support. */
    constructor (supported: bool)
      ensures hasRecognizer == supported && speechSupported == supported
      ensures !isListening && isFreshStart && transcript == []
    {
      hasRecognizer := supported;
      speechSupported := supported;
      isListening := false;
      isFreshStart := true;
      transcript := [];
    }

    /** `startListening`: asks the recognizer to start only when there is one and it is not listening. */
    method StartListening() returns (req: Request)
      ensures req == Start <==> hasRecognizer && !isListening
      ensures req != Stop
    {
      req := if hasRecognizer && !isListening then Start else NoRequest;
    }

    /** `stopListening`: asks the recognizer to stop only when there is one and it is listening. */
    method StopListening() returns (req: Request)
      ensures req == Stop <==> hasRecognizer && isListening
      ensures req != Start
    {
      req := if hasRecognizer && isListening then Stop else NoRequest;
    }

    /** `toggleListening`: stops while listening, starts otherwise. */
    method ToggleListening() returns (req: Request)
      ensures isListening ==> req != Start && (req == Stop <==> hasRecognizer)
      ensures !isListening ==> req != Stop && (req == Start <==> hasRecognizer)
    {
      if isListening {
        req := StopListening();
      } else {
        req := StartListening();
      }
    }

    /**
     * A click on the microphone button: with the button disabled (the chat is
     * busy, or speech input is unsupported) the click does nothing, otherwise
     * it toggles listening.
     */
    method ClickMicrophone(disabled: bool) returns (req: Request)
      ensures (disabled || !speechSupported) ==> req == NoRequest
      ensures !(disabled || !speechSupported) && isListening ==> req != Start && (req == Stop <==> hasRecognizer)
      ensures !(disabled || !speechSupported) && !isListening ==> req != Stop && (req == Start <==> hasRecognizer)
    {
      if disabled || !speechSupported {
        req := NoRequest;
      } else {
        req := ToggleListening();
      }
    }

    /** `onstart`: listening begins; a fresh session clears the transcript first. */
    method OnStart()
      modifies this`isListening, this`isFreshStart, this`transcript
      ensures isListening && !isFreshStart
      ensures transcript == if old(isFreshStart) then [] else old(transcript)
    {
      isListening := true;
      if isFreshStart {
        transcript := [];
        isFreshStart := false;
      }
    }

    /**
     * `onresult`: final texts are committed to the transcript, interim texts
     * are only shown. `display` is the value written to the text field and
     * passed to `onTranscriptUpdate`.
     */
    method OnResult(results: seq<SpeechResult>, resultIndex: nat) returns (display: string)
      modifies this`transcript
      ensures transcript == old(transcript) + Finals(Pending(results, resultIndex))
      ensures display == transcript + Interims(Pending(results, resultIndex))
      ensures old(transcript) <= transcript <= display
    {
      var final, interim := SplitResults(results, resultIndex);
      var accumulatedFinal := transcript + final;
      display := accumulatedFinal + interim;
      transcript := accumulatedFinal;
    }

    /**
     * `onend`: listening stops and the next start is fresh. The transcript is
     * kept; when it is non-empty it is written back to the text field.
     */
    method OnEnd() returns (fieldWrite: Option<string>)
      modifies this`isListening, this`isFreshStart
      ensures !isListening && isFreshStart
      ensures fieldWrite == if transcript != [] then Some(transcript) else None
    {
      isListening := false;
      isFreshStart := true;
      fieldWrite := if transcript != [] then Some(transcript) else None;
    }

    /** `onerror`: listening stops; nothing else changes. */
    method OnError()
      modifies this`isListening
      ensures !isListening
    {
      isListening := false;
    }
  }
}
