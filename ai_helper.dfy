/** The text-model helpers (backend/src/services/ai-helper-service.js):
    rewriting a journal text on request, and reading an emotion, an emoji
    and a confidence out of a journal text.

    The configured model is a parameter. `Model(generate)` stands for
    `model.generateContent(prompt)` followed by `response.text()`, which
    either yields the reply text or throws; `NoModel` is the `null` model the
    application exports when no API key is configured. */
module AiHelper {
  import opened Wrappers
  import opened JsString
  import TextFormatter
  import opened JsonValues

  datatype Gemini = NoModel | Model(generate: string -> Outcome<string>)

  // ---------------------------------------------------------------------
  // enhanceJournalText
  // ---------------------------------------------------------------------

  /** The request body: `text` and `instruction`, each possibly absent. */
  datatype EnhanceRequest = EnhanceRequest(text: Option<string>, instruction: Option<string>)

  datatype Enhanced = Enhanced(original_text: string, enhanced_text: string, instruction: string)

  const FixGrammar := "Perbaiki tata bahasa (grammar) dan ejaan (typo) teks berikut agar menjadi Bahasa Indonesia yang baku dan benar. Jangan ubah makna kalimat. Hanya berikan hasil perbaikan."
  const Paraphrase := "Tulis ulang (parafrase) teks berikut agar lebih mengalir dan natural, namun maknanya tetap sama. Hanya berikan hasil teks baru."
  const Elaboration := "Kembangkan teks jurnal pendek ini menjadi lebih panjang, deskriptif, dan menyentuh perasaan. Bayangkan Anda adalah penulis yang sedang mencurahkan isi hati di diary. Hanya berikan hasil teks."
  const Tidy := "Rapikan teks berikut ini. Hanya berikan hasilnya."

  const NotConfigured := "Layanan AI tidak terkonfigurasi (API Key missing)."
  const TextRequired := "Field 'text' wajib diisi."
  const ModelFailed := "Gagal memproses permintaan AI. Silakan coba lagi."

  /** The `switch` on the instruction name. */
  function SystemInstruction(instruction: Option<string>): string {
    match instruction
    case Some("fix_grammar") => FixGrammar
    case Some("paraphrase") => Paraphrase
    case Some("elaboration") => Elaboration
    case _ => Tidy
  }

  const PromptOpen := "\n\n---\nTeks Asli: \""
  const PromptClose := "\"\n---"

  function EnhancePrompt(instruction: Option<string>, text: string): string {
    SystemInstruction(instruction) + PromptOpen + text + PromptClose
  }

  /** The prompt quotes the text verbatim: it can be read back out of it. */
  lemma EnhancePromptQuotesText(instruction: Option<string>, text: string)
    ensures var p := EnhancePrompt(instruction, text);
            var start := |SystemInstruction(instruction) + PromptOpen|;
            start + |PromptClose| <= |p| && p[start..|p| - |PromptClose|] == text
  {
    var p := EnhancePrompt(instruction, text);
    var head := SystemInstruction(instruction) + PromptOpen;
    assert p == head + text + PromptClose;
    assert p[|head|..|p| - |PromptClose|] == text;
  }

  /** Only the three known names select their own instruction; any other
      value, or none, selects the general one. */
  lemma SystemInstructionCases(instruction: Option<string>)
    ensures SystemInstruction(instruction) != Tidy <==>
            instruction in {Some("fix_grammar"), Some("paraphrase"), Some("elaboration")}
  {
  }

  /** `enhanceJournalText(request)`. */
  function EnhanceJournalText(gemini: Gemini, request: EnhanceRequest): (r: Result<Enhanced>)
    ensures gemini.NoModel? <==> r == Err(ResponseError(500, NotConfigured))
    ensures gemini.Model? && !Truthy(request.text) <==> r == Err(ResponseError(400, TextRequired))
    ensures r.Ok? ==> gemini.Model? && Truthy(request.text) && r.value.original_text == request.text.value
    ensures r.Ok? ==> r.value.instruction == if Truthy(request.instruction) then request.instruction.value else "general"
    ensures gemini.Model? && Truthy(request.text) ==>
              match gemini.generate(EnhancePrompt(request.instruction, request.text.value))
              case Throws(_) => r == Err(ResponseError(500, ModelFailed))
              case Returns(reply) => r.Ok? && r.value.enhanced_text == TextFormatter.AiFormat(Some(reply))
    ensures r.Ok? ==> TextFormatter.Clean(r.value.enhanced_text)
  {
    if gemini.NoModel? then Err(ResponseError(500, NotConfigured))
    else if !Truthy(request.text) then Err(ResponseError(400, TextRequired))
    else match gemini.generate(EnhancePrompt(request.instruction, request.text.value))
      case Throws(_) => Err(ResponseError(500, ModelFailed))
      case Returns(reply) =>
        TextFormatter.AiFormatClean(Some(reply));
        Ok(Enhanced(request.text.value, TextFormatter.AiFormat(Some(reply)),
                    if Truthy(request.instruction) then request.instruction.value else "general"))
  }

  /** Whatever the model replies, the enhanced text is the reply passed
      through the formatter: clean, without white space at either end, and
      left unchanged by formatting it again. */
  lemma EnhanceFormatsReply(gemini: Gemini, request: EnhanceRequest, reply: string)
    requires gemini.Model? && Truthy(request.text)
    requires gemini.generate(EnhancePrompt(request.instruction, request.text.value)) == Returns(reply)
    ensures var r := EnhanceJournalText(gemini, request);
            r.Ok? && r.value.enhanced_text == TextFormatter.AiFormat(Some(reply)) &&
            TextFormatter.Clean(r.value.enhanced_text) &&
            TextFormatter.AiFormat(Some(r.value.enhanced_text)) == r.value.enhanced_text &&
            (r.value.enhanced_text != [] ==> !IsSpace(r.value.enhanced_text[0]) &&
                                              !IsSpace(r.value.enhanced_text[|r.value.enhanced_text| - 1]))
  {
    TextFormatter.AiFormatClean(Some(reply));
    TextFormatter.AiFormatIdempotent(Some(reply));
  }

  /** A model that answers with a bold tag around plain text gives that text
      between asterisks. */
  lemma EnhanceBoldReply(gemini: Gemini, request: EnhanceRequest, x: string)
    requires gemini.Model? && Truthy(request.text)
    requires gemini.generate(EnhancePrompt(request.instruction, request.text.value)) == Returns("<b>" + x + "</b>")
    requires TextFormatter.Plain(x) && NoSpace(x)
    ensures EnhanceJournalText(gemini, request).Ok?
    ensures EnhanceJournalText(gemini, request).value.enhanced_text == "**" + x + "**"
  {
    TextFormatter.BoldReply(x);
  }

  // ---------------------------------------------------------------------
  // analyzeSentiment
  // ---------------------------------------------------------------------

  /** The three properties read from the model's answer. */
  datatype Analysis = Analysis(emotion: JsonValue, expression: JsonValue, confidence: JsonValue)

  const DefaultEmotion := Str("Neutral")
  const DefaultExpression := Str("\U{1F610}")
  const DefaultConfidence := Number(0.5)

  function SentimentPrompt(text: string): string {
    SentimentInstructions + text + "\"\n    "
  }

  const SentimentInstructions :=
    "\n        Analisis teks jurnal berikut sebagai seorang psikolog empati. Tentukan:"
    + "\n        1. \"emotion\": Satu kata sifat bahasa Inggris yang paling mewakili perasaan dominan penulis (contoh: Happy, Sad, Anxious, Grateful, Tired, Excited, Angry, Calm)."
    + "\n        2. \"expression\": Satu emoji yang paling tepat mewakili nuansa teks (contoh: \U{1F60A}, \U{1F622}, \U{1F634}, \U{1F621}, \U{1F9D8})."
    + "\n        3. \"confidence\": Angka desimal 0.0 - 1.0 seberapa yakin kamu dengan analisis ini."
    + "\n\n        Output WAJIB berupa JSON valid saja tanpa format markdown."
    + "\n        Format JSON: {\"emotion\": \"string\", \"expression\": \"string\", \"confidence\": number}"
    + "\n        \n        Teks Jurnal: \""

  /** `s.replace(/```json|```/g, "")`: at each position the longer fence is
      tried first. */
  function StripFences(s: string): string
    decreases |s|
  {
    if s == [] then []
    else if StartsWith(s, "```json") then StripFences(s[7..])
    else if StartsWith(s, "```") then StripFences(s[3..])
    else [s[0]] + StripFences(s[1..])
  }

  /** The text handed to `JSON.parse`. */
  function JsonText(reply: string): string {
    Trim(StripFences(reply))
  }

  /** `analyzeSentiment(text)`. `parse` stands for `JSON.parse` followed by
      reading the three properties: `None` when the text is not JSON, or when
      it is `null` so that reading a property throws. */
  function AnalyzeSentiment(gemini: Gemini, text: string, parse: string -> Option<Analysis>): (r: Option<Analysis>)
    ensures gemini.NoModel? || text == "" || JsLength(text) < 3 ==> r.None?
    ensures r.Some? ==> JsTruthy(r.value.emotion) && JsTruthy(r.value.expression) && JsTruthy(r.value.confidence)
    ensures r.Some? ==> gemini.Model? && gemini.generate(SentimentPrompt(text)).Returns?
                        && parse(JsonText(gemini.generate(SentimentPrompt(text)).value)).Some?
  {
    if gemini.NoModel? then None
    else if text == "" || JsLength(text) < 3 then None
    else match gemini.generate(SentimentPrompt(text))
      case Throws(_) => None
      case Returns(reply) =>
        match parse(JsonText(reply))
        case None => None
        case Some(a) =>
          Some(Analysis(Or(a.emotion, DefaultEmotion), Or(a.expression, DefaultExpression), Or(a.confidence, DefaultConfidence)))
  }

  /** Each property the model supplies is kept when truthy and replaced by
      its default otherwise. */
  lemma AnalyzeSentimentDefaults(gemini: Gemini, text: string, parse: string -> Option<Analysis>, reply: string, a: Analysis)
    requires gemini.Model? && JsLength(text) >= 3
    requires gemini.generate(SentimentPrompt(text)) == Returns(reply)
    requires parse(JsonText(reply)) == Some(a)
    ensures AnalyzeSentiment(gemini, text, parse) ==
            Some(Analysis(if JsTruthy(a.emotion) then a.emotion else DefaultEmotion,
                          if JsTruthy(a.expression) then a.expression else DefaultExpression,
                          if JsTruthy(a.confidence) then a.confidence else DefaultConfidence))
  {
  }

  lemma StripFencesCopies(s: string)
    requires s != [] && s[0] != '`'
    ensures StripFences(s) == [s[0]] + StripFences(s[1..])
  {
    if |s| >= 3 {
      assert s[..3][0] == s[0];
    }
    if |s| >= 7 {
      assert s[..7][0] == s[0];
    }
  }

  lemma {:induction false} StripFencesIdentity(s: string)
    requires '`' !in s
    ensures StripFences(s) == s
    decreases |s|
  {
    if s != [] {
      StripFencesCopies(s);
      StripFencesIdentity(s[1..]);
    }
  }

  /** A copied backtick is followed by at most one more. */
  lemma StripFencesAfterCopy(s: string)
    requires s != [] && !StartsWith(s, "```")
    ensures CharRun([s[0]] + StripFences(s[1..]), '`') <= 2
  {
    var rest := StripFences(s[1..]);
    var out := [s[0]] + rest;
    assert out[1..] == rest;
    if s[0] == '`' {
      assert CharRun(out, '`') == 1 + CharRun(rest, '`');
      if |s| >= 2 && s[1] != '`' {
        StripFencesCopies(s[1..]);
        assert CharRun(rest, '`') == 0;
      } else if |s| >= 2 {
        assert |s| == 2 || s[2] != '`' by {
          if |s| >= 3 {
            assert s[..3][0] == '`' && s[..3][1] == '`' && s[..3][2] == s[2];
          }
        }
        assert !StartsWith(s[1..], "```") by {
          if |s| >= 4 {
            assert s[1..][..3][1] == s[2];
          }
        }
        assert !StartsWith(s[1..], "```json") by {
          if |s| >= 8 {
            assert s[1..][..7][1] == s[2];
          }
        }
        assert s[1..][1..] == s[2..];
        var tail := StripFences(s[2..]);
        assert rest == ['`'] + tail;
        assert rest[1..] == tail;
        if |s| >= 3 {
          StripFencesCopies(s[2..]);
        }
        assert CharRun(tail, '`') == 0;
        assert CharRun(rest, '`') == 1 + CharRun(tail, '`');
      }
    }
  }

  /** Removing the fences never leaves three backticks in a row: whatever
      survives of a run of backticks is at most two long. */
  lemma {:induction false} StripFencesNoFence(s: string)
    ensures NoThreeInARow(StripFences(s), '`')
    decreases |s|
  {
    if s != [] {
      if StartsWith(s, "```json") {
        StripFencesNoFence(s[7..]);
      } else if StartsWith(s, "```") {
        StripFencesNoFence(s[3..]);
      } else {
        StripFencesNoFence(s[1..]);
        StripFencesAfterCopy(s);
        NoThreeCons(s[0], StripFences(s[1..]), '`');
      }
    }
  }

  /** What `JSON.parse` receives has no fence and no white space at either end. */
  lemma JsonTextShape(reply: string)
    ensures NoThreeInARow(JsonText(reply), '`')
    ensures JsonText(reply) != [] ==> !IsSpace(JsonText(reply)[0]) && !IsSpace(JsonText(reply)[|JsonText(reply)| - 1])
  {
    var s := StripFences(reply);
    StripFencesNoFence(reply);
    TrimShape(s);
    var i, j :| 0 <= i <= j <= |s| && Trim(s) == s[i..j];
    NoThreeSlice(s, '`', i, j);
  }

  /** A reply wrapped in a `json` code fence is unwrapped. */
  lemma FencedJsonUnwrapped(body: string)
    requires '`' !in body
    ensures StripFences("```json" + body + "```") == body
  {
    var s := "```json" + body + "```";
    assert s[..7] == "```json";
    assert s[7..] == body + "```";
    BodyThenFence(body);
  }

  lemma {:induction false} BodyThenFence(body: string)
    requires '`' !in body
    ensures StripFences(body + "```") == body
    decreases |body|
  {
    var s := body + "```";
    if body == [] {
      assert s[..3] == "```";
      assert s[3..] == [];
    } else {
      StripFencesCopies(s);
      assert s[1..] == body[1..] + "```";
      BodyThenFence(body[1..]);
    }
  }
}
