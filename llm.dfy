/**
 * The language-model code path: the prompt assembled for a function, and the code
 * fence cut out of whatever text the model answers with. The model itself is a
 * parameter: any function from prompt to response.
 */
module Llm {
  import opened Wrappers
  import opened Text
  import opened Values

  /** The closing fence, and the opening fence of a Python block. */
  const Fence: string := "```"
  const PythonFence: string := "```python"

  /** The indentation every line of the prompt carries inside the source's triple-quoted string. */
  const Indent: string := "        "

  /** Before the first occurrence there is none. */
  lemma NoneBefore(s: string, i: nat, u: string)
    requires u != [] && i <= |s| && forall k :: 0 <= k < i ==> !OccursAt(s, k, u)
    ensures !Contains(s[..i], u)
  {
    forall k | 0 <= k <= i ensures !OccursAt(s[..i], k, u) {
      if k + |u| <= i {
        assert s[..i][k..k + |u|] == s[k..k + |u|];
        assert !OccursAt(s, k, u);
      }
    }
  }

  /** Stripping cannot create an occurrence. */
  lemma StripNone(s: string, u: string)
    requires !Contains(s, u)
    ensures !Contains(Strip(s), u)
  {
    var r, a := Strip(s), Lead(s);
    assert r == s[a..a + |r|];
    forall k | 0 <= k <= |r| ensures !OccursAt(r, k, u) {
      if k + |u| <= |r| {
        SliceOfSlice(s, a, a + |r|, k, |u|);
        assert !OccursAt(s, a + k, u);
      }
    }
  }

  /**
   * Where `s.split(sep)[-1]` begins when splitting resumes at `from`: past the last
   * separator found scanning left to right, with no separator starting at or after it.
   */
  function LastStart(s: string, sep: string, from: nat): (p: nat)
    requires sep != [] && from <= |s|
    ensures from <= p <= |s|
    ensures forall k :: p <= k <= |s| ==> !OccursAt(s, k, sep)
    ensures p == from || (|sep| <= p && OccursAt(s, p - |sep|, sep))
    decreases |s| - from
  {
    match FindFrom(s, sep, from)
    case None => from
    case Some(i) => LastStart(s, sep, i + |sep|)
  }

  /** No occurrence starting at or after `p` means none inside `s[p..]`. */
  lemma SuffixFree(s: string, p: nat, u: string)
    requires p <= |s| && forall k :: p <= k <= |s| ==> !OccursAt(s, k, u)
    ensures !Contains(s[p..], u)
  {
    forall k | 0 <= k <= |s| - p ensures !OccursAt(s[p..], k, u) {
      if k + |u| <= |s| - p {
        assert s[p..][k..k + |u|] == s[p + k..p + k + |u|];
        assert !OccursAt(s, p + k, u);
      }
    }
  }

  /** `s.split(sep)[-1]`: what follows the last separator found scanning left to right. */
  function LastPiece(s: string, sep: string): (r: string)
    requires sep != []
    ensures |r| <= |s| && r == s[|s| - |r|..]
    ensures !Contains(r, sep)
    ensures !Contains(s, sep) ==> r == s
    ensures Contains(s, sep) ==> |r| + |sep| <= |s| && OccursAt(s, |s| - |r| - |sep|, sep)
  {
    var p := LastStart(s, sep, 0);
    SuffixFree(s, p, sep);
    if p > 0 then
      ContainsWitness(s, p - |sep|, sep);
      s[p..]
    else
      assert s[p..] == s;
      s[p..]
  }

  /** `s.split(sep)[0]`: what precedes the first separator, or all of `s`. */
  function FirstPiece(s: string, sep: string): (r: string)
    requires sep != []
    ensures StartsWith(s, r)
    ensures !Contains(r, sep)
    ensures !Contains(s, sep) ==> r == s
    ensures Contains(s, sep) ==> OccursAt(s, |r|, sep)
  {
    match Find(s, sep)
    case None => s
    case Some(i) =>
      NoneBefore(s, i, sep);
      s[..i]
  }

  /** Text without a closing fence has no Python fence either. */
  lemma NoPythonFence(s: string)
    requires !Contains(s, Fence)
    ensures !Contains(s, PythonFence)
  {
    assert PythonFence == Fence + "python";
    forall k | 0 <= k <= |s| ensures !OccursAt(s, k, PythonFence) {
      if k + |PythonFence| <= |s| {
        assert s[k..k + |PythonFence|][..3] == s[k..k + 3];
        assert !OccursAt(s, k, Fence);
      }
    }
  }

  /** `response.split("```python")[-1].split("```")[0].strip()`. */
  function FencedCode(response: string): (r: string)
    ensures Stripped(r) && !Contains(r, Fence)
    ensures !Contains(response, Fence) ==> r == Strip(response)
  {
    var piece := FirstPiece(LastPiece(response, PythonFence), Fence);
    StripNone(piece, Fence);
    if Contains(response, Fence) then Strip(piece)
    else
      NoPythonFence(response);
      Strip(piece)
  }

  /** The code `generate_code` returns for a model response: the fenced code, else the whole response trimmed. */
  function ExtractCode(response: string): (r: string)
    ensures Stripped(r)
    ensures FencedCode(response) != [] ==> r == FencedCode(response) && !Contains(r, Fence)
    ensures FencedCode(response) == [] ==> r == Strip(response)
    ensures !Contains(response, Fence) ==> r == Strip(response)
  {
    var code := FencedCode(response);
    if code != [] then code else Strip(response)
  }

  /** The context line of the prompt: shown only for a truthy (present, non-empty) context. */
  function ContextLine(context: Option<string>): (line: string)
    ensures context.Some? && context.value != [] ==> line == "Additional context: " + context.value
    ensures !(context.Some? && context.value != []) ==> line == []
  {
    if context.Some? && context.value != [] then "Additional context: " + context.value else []
  }

  /** The fixed lines of the prompt after the context line: the instructions and the opening fence. */
  const Instructions: seq<string> := [
    "",
    "The code should:",
    "1. Import the function from the correct module",
    "2. Include proper error handling",
    "3. Be executable as a standalone script",
    "4. Follow PEP 8 style guidelines",
    "",
    "Return only the Python code without any explanations.",
    PythonFence,
    ""]

  /** The lines of the prompt template, before indentation; the last one is the text after the final newline. */
  function PromptLines(meta: Metadata, context: Option<string>): (ls: seq<string>)
    ensures |ls| == 18
  {
    ["Generate Python code to call the following function:",
     "",
     "Function name: " + meta.name,
     "Module: " + meta.moduleName,
     "Signature: " + meta.signature,
     "Description: " + meta.docstring,
     "",
     ContextLine(context)] + Instructions
  }

  function Indented(ls: seq<string>): (r: seq<string>)
    ensures |r| == |ls| && forall i :: 0 <= i < |ls| ==> r[i] == Indent + ls[i]
  {
    seq(|ls|, i requires 0 <= i < |ls| => Indent + ls[i])
  }

  /** The prompt `generate_code` sends: a newline, then the indented template lines. */
  function GenerationPrompt(meta: Metadata, context: Option<string>): string {
    "\n" + Join(Indented(PromptLines(meta, context)), "\n")
  }

  /** The prompt names the function, its module, its signature and its docstring. */
  lemma PromptDescribes(meta: Metadata, context: Option<string>)
    ensures Contains(GenerationPrompt(meta, context), "Function name: " + meta.name)
    ensures Contains(GenerationPrompt(meta, context), "Module: " + meta.moduleName)
    ensures Contains(GenerationPrompt(meta, context), "Signature: " + meta.signature)
    ensures Contains(GenerationPrompt(meta, context), "Description: " + meta.docstring)
  {
    var ls := Indented(PromptLines(meta, context));
    var p := Join(ls, "\n");
    forall k | 2 <= k <= 5 ensures Contains(GenerationPrompt(meta, context), PromptLines(meta, context)[k]) {
      JoinContains(ls, "\n", k);
      ContainsInside("\n", p, [], ls[k]);
      assert "\n" + p + [] == GenerationPrompt(meta, context);
      var i :| 0 <= i <= |GenerationPrompt(meta, context)| && OccursAt(GenerationPrompt(meta, context), i, ls[k]);
      OccursAfter(GenerationPrompt(meta, context), i, Indent, PromptLines(meta, context)[k]);
      ContainsWitness(GenerationPrompt(meta, context), i + |Indent|, PromptLines(meta, context)[k]);
    }
    assert PromptLines(meta, context)[2] == "Function name: " + meta.name;
    assert PromptLines(meta, context)[3] == "Module: " + meta.moduleName;
    assert PromptLines(meta, context)[4] == "Signature: " + meta.signature;
    assert PromptLines(meta, context)[5] == "Description: " + meta.docstring;
  }

  /** A truthy context is quoted in the prompt. */
  lemma PromptContext(meta: Metadata, context: Option<string>)
    requires context.Some? && context.value != []
    ensures Contains(GenerationPrompt(meta, context), "Additional context: " + context.value)
  {
    var ls := Indented(PromptLines(meta, context));
    var p := Join(ls, "\n");
    var line := PromptLines(meta, context)[7];
    JoinContains(ls, "\n", 7);
    ContainsInside("\n", p, [], ls[7]);
    assert "\n" + p + [] == GenerationPrompt(meta, context);
    var i :| 0 <= i <= |GenerationPrompt(meta, context)| && OccursAt(GenerationPrompt(meta, context), i, ls[7]);
    OccursAfter(GenerationPrompt(meta, context), i, Indent, line);
    ContainsWitness(GenerationPrompt(meta, context), i + |Indent|, line);
  }

  /** A falsy context leaves the prompt as if there were none. */
  lemma PromptNoContext(meta: Metadata, context: Option<string>)
    requires !(context.Some? && context.value != [])
    ensures GenerationPrompt(meta, context) == GenerationPrompt(meta, None)
  {
    assert ContextLine(context) == ContextLine(None);
    assert PromptLines(meta, context) == PromptLines(meta, None);
  }

  /**
   * `LLMService.generate_code`: build the prompt, ask the model, keep the code. The
   * result never begins or ends with whitespace, whatever the model answers.
   */
  function GenerateCode(meta: Metadata, context: Option<string>, generate: string -> string): (code: string)
    ensures Stripped(code)
    ensures !Contains(generate(GenerationPrompt(meta, context)), Fence) ==>
      code == Strip(generate(GenerationPrompt(meta, context)))
  {
    ExtractCode(generate(GenerationPrompt(meta, context)))
  }
}
