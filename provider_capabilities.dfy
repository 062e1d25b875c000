/** Which providers can be resumed from the command line, and the command for
    each: a template in which every "{session_id}" is replaced. */
module Capabilities {
  import opened Base
  import opened Strings

  datatype ResumeType =
    | DirectFlag
    | OpenInDirectory
    | InteractiveCommand(template: string)

  datatype ProviderCapabilities = ProviderCapabilities(
    supports_resume: bool,
    resume_command_template: Option<string>,
    cli_name: Option<string>,
    resume_type: ResumeType)

  const Placeholder := "{session_id}"

  predicate IsResumable(providerId: string) {
    providerId == "claude-code" || providerId == "codex" || providerId == "gemini" || providerId == "cursor"
  }

  /** `ProviderCapabilities::for_provider`: the four known providers resume;
      any other id has neither template nor CLI. */
  function ForProvider(providerId: string): (c: ProviderCapabilities)
    ensures c.supports_resume <==> IsResumable(providerId)
    ensures c.supports_resume <==> c.resume_command_template.Some?
    ensures c.supports_resume <==> c.cli_name.Some?
    ensures c.resume_type.InteractiveCommand? <==> providerId == "gemini"
  {
    match providerId
    case "claude-code" =>
      ProviderCapabilities(true, Some("claude --resume {session_id}"), Some("claude"), DirectFlag)
    case "codex" =>
      ProviderCapabilities(true, Some("codex resume {session_id}"), Some("codex"), DirectFlag)
    case "gemini" =>
      ProviderCapabilities(true, Some("gemini"), Some("gemini"), InteractiveCommand("/chat resume {session_id}"))
    case "cursor" =>
      ProviderCapabilities(true, Some("cursor ."), Some("cursor"), OpenInDirectory)
    case _ =>
      ProviderCapabilities(false, None, None, OpenInDirectory)
  }

  /** `build_resume_command`: the template with the id substituted. */
  function BuildResumeCommand(c: ProviderCapabilities, sessionId: string): (r: Option<string>)
    ensures r.Some? <==> c.resume_command_template.Some?
    ensures r.Some? ==> r.value == ReplaceAll(c.resume_command_template.value, Placeholder, sessionId)
  {
    match c.resume_command_template
    case Some(template) => Some(ReplaceAll(template, Placeholder, sessionId))
    case None => None
  }

  /** `get_interactive_command`: only an interactive provider has one. */
  function InteractiveCommandOf(c: ProviderCapabilities, sessionId: string): (r: Option<string>)
    ensures r.Some? <==> IsInteractive(c)
    ensures r.Some? ==> r.value == ReplaceAll(c.resume_type.template, Placeholder, sessionId)
  {
    match c.resume_type
    case InteractiveCommand(template) => Some(ReplaceAll(template, Placeholder, sessionId))
    case _ => None
  }

  /** `is_interactive`. */
  predicate IsInteractive(c: ProviderCapabilities) {
    c.resume_type.InteractiveCommand?
  }

  /** Gemini is the only interactive provider. */
  lemma OnlyGeminiIsInteractive(providerId: string)
    ensures IsInteractive(ForProvider(providerId)) <==> providerId == "gemini"
  {
  }

  /** A template ending in the placeholder, with no '{' before it, becomes
      the text before it followed by the id. */
  lemma {:induction false} FillTrailingPlaceholder(prefix: string, sessionId: string)
    requires '{' !in prefix
    ensures ReplaceAll(prefix + Placeholder, Placeholder, sessionId) == prefix + sessionId
  {
    ReplaceOnce(prefix, Placeholder, "", sessionId);
    assert prefix + Placeholder + "" == prefix + Placeholder;
    assert ReplaceAll("", Placeholder, sessionId) == "";
  }

  /** A template shorter than the placeholder cannot hold it. */
  lemma ShortTemplateUnchanged(template: string, sessionId: string)
    requires |template| < |Placeholder|
    ensures ReplaceAll(template, Placeholder, sessionId) == template
  {
  }

  lemma ClaudeResumeCommand(sessionId: string)
    ensures BuildResumeCommand(ForProvider("claude-code"), sessionId) == Some("claude --resume " + sessionId)
  {
    assert "claude --resume {session_id}" == "claude --resume " + Placeholder;
    FillTrailingPlaceholder("claude --resume ", sessionId);
  }

  lemma CodexResumeCommand(sessionId: string)
    ensures BuildResumeCommand(ForProvider("codex"), sessionId) == Some("codex resume " + sessionId)
  {
    assert "codex resume {session_id}" == "codex resume " + Placeholder;
    FillTrailingPlaceholder("codex resume ", sessionId);
  }

  /** The gemini and cursor templates hold no placeholder: the command is the
      template whatever the id. */
  lemma GeminiResumeCommand(sessionId: string)
    ensures BuildResumeCommand(ForProvider("gemini"), sessionId) == Some("gemini")
  {
    var c := ForProvider("gemini");
    assert c.resume_command_template == Some("gemini");
    ShortTemplateUnchanged("gemini", sessionId);
  }

  lemma CursorResumeCommand(sessionId: string)
    ensures BuildResumeCommand(ForProvider("cursor"), sessionId) == Some("cursor .")
  {
    var c := ForProvider("cursor");
    assert c.resume_command_template == Some("cursor .");
    ShortTemplateUnchanged("cursor .", sessionId);
  }

  /** Gemini's interactive command names the session. */
  lemma GeminiInteractiveCommand(sessionId: string)
    ensures InteractiveCommandOf(ForProvider("gemini"), sessionId) == Some("/chat resume " + sessionId)
  {
    var c := ForProvider("gemini");
    assert c.resume_type == InteractiveCommand("/chat resume {session_id}");
    assert "/chat resume {session_id}" == "/chat resume " + Placeholder;
    FillTrailingPlaceholder("/chat resume ", sessionId);
  }
}
