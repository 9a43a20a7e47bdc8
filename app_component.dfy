/** The form and session controller: the two birth records with their error
    slots, and the outputs, loading flags and errors of the analysis, image,
    chat and low-latency actions. Each action is one atomic step; the
    awaited service call is an input (`reply`) and the action returns the
    request it handed to the service, or None when it made no call. */
module Session {
  import opened Outcomes
  import opened TextRules
  import opened Validation

  datatype Sender = User | Gemini
  datatype ChatMessage = ChatMessage(sender: Sender, text: string, groundingUrls: Option<seq<string>>)
  datatype Tab = InputTab | ResultsTab

  /** The markdown renderer: the markup for a text, or None when it throws. */
  type Markdown = string -> Option<string>

  const AggregateError := "Molimo popunite sva obavezna polja ispravno."
  const AnalysisFallback := "An unknown error occurred during analysis."
  const MissingImagePrompt := "Please provide an image prompt."
  const ImageFallback := "Failed to generate image."
  const ChatFallback := "Failed to get chat response. Please try again."
  const SearchFallback := "Failed to perform search grounding."
  const MapsFallback := "Failed to perform maps grounding."
  const MissingLowLatencyQuery := "Please enter a query for low-latency response."
  const LowLatencyFallback := "Failed to get low-latency response."
  const RenderErrorHead := "<p class=\"text-red-400\">Error rendering analysis.</p><pre>"
  const RenderErrorTail := "</pre>"
  const ImagePromptHead := "An artistic representation of "
  const ImagePromptMiddle := " and "
  const ImagePromptTail := "'s love, inspired by Slavic mythology, featuring Lada and Yarilo, in a vibrant, romantic style."

  /** The message a failed call leaves: the error's own message unless it
      is absent or empty, else the action's fallback. */
  function ErrorText(message: Option<string>, fallback: string): string {
    if message.Some? && message.value != "" then message.value else fallback
  }

  /** The markup shown for an analysis text: none for an empty text, the
      renderer's output otherwise, and when the renderer throws an inline
      error block that still shows the raw text. */
  function RenderedHtml(result: string, markdown: Markdown): (html: string)
    ensures html == "" <==> result == "" || markdown(result) == Some("")
    ensures result != "" && markdown(result).Some? ==> html == markdown(result).value
    ensures result != "" && markdown(result).None? ==>
      |html| == |RenderErrorHead| + |result| + |RenderErrorTail|
      && html[|RenderErrorHead|..|RenderErrorHead| + |result|] == result
  {
    if result == "" then ""
    else match markdown(result)
      case Some(markup) => markup
      case None =>
        var html := RenderErrorHead + result + RenderErrorTail;
        assert html[|RenderErrorHead|..|RenderErrorHead| + |result|] == result;
        html
  }

  /** The image prompt derived after an analysis: it names both persons, the
      first right after the fixed opening and the second right after " and ". */
  function ImagePromptFor(nameA: string, nameB: string): (p: string)
    ensures |p| == |ImagePromptHead| + |nameA| + |ImagePromptMiddle| + |nameB| + |ImagePromptTail|
    ensures p[..|ImagePromptHead|] == ImagePromptHead
    ensures p[|ImagePromptHead|..|ImagePromptHead| + |nameA|] == nameA
    ensures var startB := |ImagePromptHead| + |nameA| + |ImagePromptMiddle|;
      p[startB..startB + |nameB|] == nameB
  {
    var p := ImagePromptHead + nameA + ImagePromptMiddle + nameB + ImagePromptTail;
    assert p[|ImagePromptHead|..|ImagePromptHead| + |nameA|] == nameA;
    var startB := |ImagePromptHead| + |nameA| + |ImagePromptMiddle|;
    assert p[startB..startB + |nameB|] == nameB;
    p
  }

  class AppComponent {
    var personA: BirthRecord
    var personB: BirthRecord
    /** The error slots: a field's slot holds a message exactly when the
        field is a key here. */
    var fieldErrors: map<FieldId, string>

    var analysisResult: string
    var analysisHtml: string
    var loadingAnalysis: bool
    var analysisError: Option<string>

    var imagePrompt: string
    var generatedImageSrc: Option<string>
    var loadingImage: bool
    var imageError: Option<string>

    var chatHistory: seq<ChatMessage>
    var chatInput: string
    var loadingChat: bool
    var chatError: Option<string>

    var lowLatencyResponse: Option<string>
    var loadingLowLatency: bool
    var lowLatencyError: Option<string>

    var activeMobileTab: Tab
    const markdown: Markdown

    /** The markup reflects the analysis text. */
    ghost predicate Rendered()
      reads this
    {
      analysisHtml == RenderedHtml(analysisResult, markdown)
    }

    /** Between actions the markup always reflects the analysis text and no
        action is loading. */
    ghost predicate Valid()
      reads this
    {
      Rendered() && !loadingAnalysis && !loadingImage && !loadingChat && !loadingLowLatency
    }

    constructor (markdown: Markdown)
      ensures Valid() && this.markdown == markdown
      ensures personA == BirthRecord("Ana Petrovi\U{0107}", "", "", "")
      ensures personB == BirthRecord("Marko Horvat", "", "", "")
      ensures fieldErrors == map[]
      ensures analysisResult == "" && analysisHtml == "" && analysisError == None
      ensures imagePrompt == "" && generatedImageSrc == None && imageError == None
      ensures chatHistory == [] && chatInput == "" && chatError == None
      ensures lowLatencyResponse == None && lowLatencyError == None
      ensures activeMobileTab == InputTab
    {
      personA := BirthRecord("Ana Petrovi\U{0107}", "", "", "");
      personB := BirthRecord("Marko Horvat", "", "", "");
      fieldErrors := map[];
      analysisResult, analysisHtml, loadingAnalysis, analysisError := "", "", false, None;
      imagePrompt, generatedImageSrc, loadingImage, imageError := "", None, false, None;
      chatHistory, chatInput, loadingChat, chatError := [], "", false, None;
      lowLatencyResponse, loadingLowLatency, lowLatencyError := None, false, None;
      activeMobileTab := InputTab;
      this.markdown := markdown;
    }

    /** The user edits one field. Its error slot is cleared when the value
        actually changes; every other field and slot is left alone. */
    method SetField(id: FieldId, v: string)
      modifies this`personA, this`personB, this`fieldErrors
      ensures ValueAt(personA, personB, id) == v
      ensures forall other :: other != id ==> ValueAt(personA, personB, other) == old(ValueAt(personA, personB, other))
      ensures fieldErrors == if v == old(ValueAt(personA, personB, id)) then old(fieldErrors) else old(fieldErrors) - {id}
    {
      var changed := v != ValueAt(personA, personB, id);
      if id.person == A {
        personA := WithValue(personA, id.slot, v);
      } else {
        personB := WithValue(personB, id.slot, v);
      }
      if changed {
        fieldErrors := fieldErrors - {id};
      }
    }

    method ClearValidationErrors()
      modifies this`fieldErrors
      ensures fieldErrors == map[]
    {
      fieldErrors := map[];
    }

    /** Fills the form with the sample couple and clears every error slot. */
    method GenerateExampleAstroData()
      modifies this`personA, this`personB, this`fieldErrors
      ensures personA == SampleA && personB == SampleB
      ensures fieldErrors == map[]
    {
      ClearValidationErrors();
      personA := SampleA;
      personB := SampleB;
    }

    /** Runs the checks of one field and, when it fails, writes its message. */
    method CheckField(id: FieldId, parse: DateParser, today: Day) returns (ok: bool)
      modifies this`fieldErrors
      ensures ok == Acceptable(id.slot, ValueAt(personA, personB, id), parse, today)
      ensures fieldErrors == old(fieldErrors) + FieldFailure(personA, personB, id, parse, today)
    {
      var problem := FieldProblem(id.slot, ValueAt(personA, personB, id), parse, today);
      FieldProblemExact(id.slot, ValueAt(personA, personB, id), parse, today);
      ok := problem.None?;
      if !ok {
        fieldErrors := fieldErrors[id := MessageFor(id, problem.value)];
      }
    }

    /** Checks the four fields of one person, each independently. */
    method ValidatePerson(p: Person, parse: DateParser, today: Day) returns (ok: bool)
      modifies this`fieldErrors
      ensures ok == PersonAcceptable(if p == A then personA else personB, parse, today)
      ensures fieldErrors == old(fieldErrors) + CheckedFailures(FieldsOf(p), personA, personB, parse, today)
    {
      ghost var before := fieldErrors;
      ghost var checked: set<FieldId> := {};
      assert CheckedFailures(checked, personA, personB, parse, today) == map[];
      assert before + map[] == before;
      ok := true;
      var passed: bool;

      passed := CheckField(FieldId(p, Name), parse, today);
      if !passed { ok := false; }
      CheckOneMore(before, checked, FieldId(p, Name), personA, personB, parse, today);
      checked := checked + {FieldId(p, Name)};

      passed := CheckField(FieldId(p, BirthDate), parse, today);
      if !passed { ok := false; }
      CheckOneMore(before, checked, FieldId(p, BirthDate), personA, personB, parse, today);
      checked := checked + {FieldId(p, BirthDate)};

      passed := CheckField(FieldId(p, BirthTime), parse, today);
      if !passed { ok := false; }
      CheckOneMore(before, checked, FieldId(p, BirthTime), personA, personB, parse, today);
      checked := checked + {FieldId(p, BirthTime)};

      passed := CheckField(FieldId(p, BirthPlace), parse, today);
      if !passed { ok := false; }
      CheckOneMore(before, checked, FieldId(p, BirthPlace), personA, personB, parse, today);
      checked := checked + {FieldId(p, BirthPlace)};

      assert checked == FieldsOf(p);
    }

    /** Checks all eight fields without stopping at the first failure. The
        verdict is the reference rule for the whole form, every failing field
        gets its message in this one pass, and the slots of passing fields
        keep whatever they held. */
    method ValidateForm(parse: DateParser, today: Day) returns (isValid: bool)
      modifies this`fieldErrors
      ensures isValid == FormAcceptable(personA, personB, parse, today)
      ensures fieldErrors == old(fieldErrors) + FailureMessages(personA, personB, parse, today)
    {
      var okA := ValidatePerson(A, parse, today);
      var okB := ValidatePerson(B, parse, today);
      isValid := okA && okB;
      CheckBoth(old(fieldErrors), FieldsOf(A), FieldsOf(B), personA, personB, parse, today);
      assert FieldsOf(A) + FieldsOf(B) == AllFields;
    }

    /** Submits the form for analysis. When validation fails only the error
        slots and the aggregate error change and no request is made;
        otherwise the request is made as RequestAnalysis describes. */
    method OnSubmitAnalysis(parse: DateParser, today: Day, reply: Reply<string>) returns (request: Option<(BirthRecord, BirthRecord)>)
      requires Valid()
      modifies this`fieldErrors, this`analysisError, this`loadingAnalysis, this`analysisResult, this`analysisHtml
      modifies this`imagePrompt, this`activeMobileTab
      ensures Valid()
      ensures fieldErrors == old(fieldErrors) + FailureMessages(personA, personB, parse, today)
      ensures !FormAcceptable(personA, personB, parse, today) ==>
        request == None && analysisError == Some(AggregateError)
        && analysisResult == old(analysisResult) && imagePrompt == old(imagePrompt) && activeMobileTab == old(activeMobileTab)
      ensures FormAcceptable(personA, personB, parse, today) ==> request == Some((personA, personB))
      ensures FormAcceptable(personA, personB, parse, today) && reply.Done? ==>
        analysisResult == reply.value && analysisError == None
        && imagePrompt == ImagePromptFor(personA.name, personB.name) && activeMobileTab == ResultsTab
      ensures FormAcceptable(personA, personB, parse, today) && reply.Failed? ==>
        analysisError == Some(ErrorText(reply.message, AnalysisFallback))
        && analysisResult == old(analysisResult) && imagePrompt == old(imagePrompt) && activeMobileTab == old(activeMobileTab)
    {
      var isValid := ValidateForm(parse, today);
      if !isValid {
        analysisError := Some(AggregateError);
        return None;
      }
      request := Some((personA, personB));
      RequestAnalysis(reply);
    }

    /** The analysis request proper. On an answer the text is stored and
        rendered, the image prompt is derived from both names and the results
        view is shown; on a failure only the error changes and earlier
        results stay. */
    method RequestAnalysis(reply: Reply<string>)
      requires Valid()
      modifies this`analysisError, this`loadingAnalysis, this`analysisResult, this`analysisHtml
      modifies this`imagePrompt, this`activeMobileTab
      ensures Valid()
      ensures reply.Done? ==>
        analysisResult == reply.value && analysisError == None
        && imagePrompt == ImagePromptFor(personA.name, personB.name) && activeMobileTab == ResultsTab
      ensures reply.Failed? ==>
        analysisError == Some(ErrorText(reply.message, AnalysisFallback))
        && analysisResult == old(analysisResult) && imagePrompt == old(imagePrompt) && activeMobileTab == old(activeMobileTab)
    {
      loadingAnalysis := true;
      analysisError := None;
      if reply.Done? {
        SetAnalysisResult(reply.value);
        imagePrompt := ImagePromptFor(personA.name, personB.name);
        activeMobileTab := ResultsTab;
      } else {
        analysisError := Some(ErrorText(reply.message, AnalysisFallback));
      }
      loadingAnalysis := false;
    }

    /** Stores a new analysis text; the markup is re-derived from it, so the
        two never disagree. */
    method SetAnalysisResult(result: string)
      modifies this`analysisResult, this`analysisHtml
      ensures Rendered()
      ensures analysisResult == result
    {
      analysisResult := result;
      analysisHtml := RenderedHtml(result, markdown);
    }

    /** Generates an image from the current prompt; an empty prompt is an
        error and makes no request. A failure keeps the earlier image. */
    method OnGenerateImage(reply: Reply<string>) returns (request: Option<string>)
      requires Valid()
      modifies this`imageError, this`loadingImage, this`generatedImageSrc
      ensures Valid()
      ensures imagePrompt == "" ==>
        request == None && imageError == Some(MissingImagePrompt) && generatedImageSrc == old(generatedImageSrc)
      ensures imagePrompt != "" ==> request == Some(imagePrompt)
      ensures imagePrompt != "" && reply.Done? ==> generatedImageSrc == Some(reply.value) && imageError == None
      ensures imagePrompt != "" && reply.Failed? ==>
        imageError == Some(ErrorText(reply.message, ImageFallback)) && generatedImageSrc == old(generatedImageSrc)
    {
      if imagePrompt == "" {
        imageError := Some(MissingImagePrompt);
        return None;
      }
      loadingImage := true;
      imageError := None;
      request := Some(imagePrompt);
      if reply.Done? {
        generatedImageSrc := Some(reply.value);
      } else {
        imageError := Some(ErrorText(reply.message, ImageFallback));
      }
      loadingImage := false;
    }

    /** The steps the chat-panel actions share once their input is not
        blank: show the user's entry, clear the input, then append the
        answer or record the failure. */
    method Exchange(shown: string, outcome: Reply<ChatMessage>, fallback: string)
      requires Valid()
      modifies this`chatHistory, this`chatInput, this`loadingChat, this`chatError
      ensures Valid()
      ensures outcome.Done? ==> chatHistory == old(chatHistory) + [ChatMessage(User, shown, None), outcome.value] && chatError == None
      ensures outcome.Failed? ==>
        chatHistory == old(chatHistory) + [ChatMessage(User, shown, None)]
        && chatError == Some(ErrorText(outcome.message, fallback))
      ensures chatInput == ""
    {
      chatHistory := chatHistory + [ChatMessage(User, shown, None)];
      chatInput := "";
      loadingChat := true;
      chatError := None;
      if outcome.Done? {
        chatHistory := chatHistory + [outcome.value];
      } else {
        chatError := Some(ErrorText(outcome.message, fallback));
      }
      loadingChat := false;
    }

    /** Sends the chat input. Blank input changes nothing and makes no
        request; otherwise the transcript only grows: the user's entry, then
        the reply when there is one. */
    method OnChatSubmit(reply: Reply<string>) returns (request: Option<string>)
      requires Valid()
      modifies this`chatHistory, this`chatInput, this`loadingChat, this`chatError
      ensures Valid()
      ensures old(chatHistory) <= chatHistory
      ensures request == if Trim(old(chatInput)) == "" then None else Some(Trim(old(chatInput)))
      ensures request == None ==>
        chatHistory == old(chatHistory) && chatInput == old(chatInput) && chatError == old(chatError)
      ensures request.Some? ==> chatInput == ""
      ensures request.Some? && reply.Done? ==>
        chatHistory == old(chatHistory) + [ChatMessage(User, request.value, None), ChatMessage(Gemini, reply.value, None)]
        && chatError == None
      ensures request.Some? && reply.Failed? ==>
        chatHistory == old(chatHistory) + [ChatMessage(User, request.value, None)]
        && chatError == Some(ErrorText(reply.message, ChatFallback))
    {
      var userMessage := Trim(chatInput);
      if userMessage == "" {
        return None;
      }
      request := Some(userMessage);
      var outcome := match reply
        case Done(text) => Done(ChatMessage(Gemini, text, None))
        case Failed(message) => Failed(message);
      Exchange(userMessage, outcome, ChatFallback);
    }

    /** The shared shape of the two grounded queries; `tag` prefixes the
        user's entry in the transcript. */
    method GroundedExchange(query: Option<string>, tag: string, reply: Reply<GroundedAnswer>, fallback: string)
      returns (request: Option<string>)
      requires Valid()
      modifies this`chatHistory, this`chatInput, this`loadingChat, this`chatError
      ensures Valid()
      ensures old(chatHistory) <= chatHistory
      ensures var asked := Trim(if query.Some? then query.value else old(chatInput));
        request == if asked == "" then None else Some(asked)
      ensures request == None ==>
        chatHistory == old(chatHistory) && chatInput == old(chatInput) && chatError == old(chatError)
      ensures request.Some? ==> chatInput == ""
      ensures request.Some? && reply.Done? ==>
        chatHistory == old(chatHistory) + [ChatMessage(User, tag + request.value, None),
                                           ChatMessage(Gemini, reply.value.text, Some(reply.value.urls))]
        && chatError == None
      ensures request.Some? && reply.Failed? ==>
        chatHistory == old(chatHistory) + [ChatMessage(User, tag + request.value, None)]
        && chatError == Some(ErrorText(reply.message, fallback))
    {
      var userMessage := Trim(if query.Some? then query.value else chatInput);
      if userMessage == "" {
        return None;
      }
      request := Some(userMessage);
      var outcome := match reply
        case Done(answer) => Done(ChatMessage(Gemini, answer.text, Some(answer.urls)))
        case Failed(message) => Failed(message);
      Exchange(tag + userMessage, outcome, fallback);
    }

    /** A web-search-grounded query from `query`, or from the chat input when
        no query is given; the user's entry reads "Search: " and the query. */
    method OnSearchGrounding(query: Option<string>, reply: Reply<GroundedAnswer>) returns (request: Option<string>)
      requires Valid()
      modifies this`chatHistory, this`chatInput, this`loadingChat, this`chatError
      ensures Valid()
      ensures old(chatHistory) <= chatHistory
      ensures var asked := Trim(if query.Some? then query.value else old(chatInput));
        request == if asked == "" then None else Some(asked)
      ensures request == None ==>
        chatHistory == old(chatHistory) && chatInput == old(chatInput) && chatError == old(chatError)
      ensures request.Some? ==> chatInput == ""
      ensures request.Some? && reply.Done? ==>
        chatHistory == old(chatHistory) + [ChatMessage(User, "Search: " + request.value, None),
                                           ChatMessage(Gemini, reply.value.text, Some(reply.value.urls))]
        && chatError == None
      ensures request.Some? && reply.Failed? ==>
        chatHistory == old(chatHistory) + [ChatMessage(User, "Search: " + request.value, None)]
        && chatError == Some(ErrorText(reply.message, SearchFallback))
    {
      request := GroundedExchange(query, "Search: ", reply, SearchFallback);
    }

    /** The maps variant of the grounded query; the user's entry reads
        "Maps: " and the query. */
    method OnMapsGrounding(query: Option<string>, reply: Reply<GroundedAnswer>) returns (request: Option<string>)
      requires Valid()
      modifies this`chatHistory, this`chatInput, this`loadingChat, this`chatError
      ensures Valid()
      ensures old(chatHistory) <= chatHistory
      ensures var asked := Trim(if query.Some? then query.value else old(chatInput));
        request == if asked == "" then None else Some(asked)
      ensures request == None ==>
        chatHistory == old(chatHistory) && chatInput == old(chatInput) && chatError == old(chatError)
      ensures request.Some? ==> chatInput == ""
      ensures request.Some? && reply.Done? ==>
        chatHistory == old(chatHistory) + [ChatMessage(User, "Maps: " + request.value, None),
                                           ChatMessage(Gemini, reply.value.text, Some(reply.value.urls))]
        && chatError == None
      ensures request.Some? && reply.Failed? ==>
        chatHistory == old(chatHistory) + [ChatMessage(User, "Maps: " + request.value, None)]
        && chatError == Some(ErrorText(reply.message, MapsFallback))
    {
      request := GroundedExchange(query, "Maps: ", reply, MapsFallback);
    }

    /** A single fast query from the chat input, answered outside the chat:
        blank input is an error and makes no request, and the transcript and
        the input are never touched. */
    method OnGetLowLatencyResponse(reply: Reply<string>) returns (request: Option<string>)
      requires Valid()
      modifies this`loadingLowLatency, this`lowLatencyError, this`lowLatencyResponse
      ensures Valid()
      ensures request == if Trim(chatInput) == "" then None else Some(Trim(chatInput))
      ensures request == None ==>
        lowLatencyError == Some(MissingLowLatencyQuery) && lowLatencyResponse == old(lowLatencyResponse)
      ensures request.Some? && reply.Done? ==> lowLatencyResponse == Some(reply.value) && lowLatencyError == None
      ensures request.Some? && reply.Failed? ==>
        lowLatencyResponse == None && lowLatencyError == Some(ErrorText(reply.message, LowLatencyFallback))
    {
      var query := Trim(chatInput);
      if query == "" {
        lowLatencyError := Some(MissingLowLatencyQuery);
        return None;
      }
      loadingLowLatency := true;
      lowLatencyError := None;
      lowLatencyResponse := None;
      request := Some(query);
      if reply.Done? {
        lowLatencyResponse := Some(reply.value);
      } else {
        lowLatencyError := Some(ErrorText(reply.message, LowLatencyFallback));
      }
      loadingLowLatency := false;
    }
  }
}
