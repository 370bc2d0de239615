/** `PromptManager` of `src/core/prompt_manager.py`: a registry of system
    prompt templates by name, with `"default"` as the fallback. The default
    template's text is a parameter of the constructor. */
module Prompts {

  const Default := "default"

  /** `get_system_prompt(name)` on a registry: the named template, or the
      current default for an unknown name. */
  function PromptFor(templates: map<string, string>, name: string): (p: string)
    requires Default in templates
    ensures name in templates ==> p == templates[name]
    ensures name !in templates ==> p == templates[Default]
  {
    if name !in templates then templates[Default] else templates[name]
  }

  /** Registering a template changes the answer for its own name only, and
      for unknown names when it is `"default"` that is re-registered. */
  lemma RegisterEffect(templates: map<string, string>, name: string, prompt: string, query: string)
    requires Default in templates
    ensures PromptFor(templates[name := prompt], query) ==
      if query == name then prompt
      else if query in templates then templates[query]
      else if name == Default then prompt
      else templates[Default]
  {
  }

  class PromptManager {
    var templates: map<string, string>

    /** `"default"` can be overwritten but never removed. */
    predicate Valid()
      reads this
    {
      Default in templates
    }

    /** `__init__`: only `"default"`, holding the default prompt. */
    constructor(defaultPrompt: string)
      ensures Valid()
      ensures templates == map[Default := defaultPrompt]
    {
      templates := map[Default := defaultPrompt];
    }

    /** `get_system_prompt(template_name)` */
    function GetSystemPrompt(name: string): (p: string)
      reads this
      requires Valid()
      ensures p == PromptFor(templates, name)
    {
      if name !in templates then templates[Default] else templates[name]
    }

    /** `register_prompt_template(name, prompt)`: adds or overwrites one
        entry. */
    method RegisterPromptTemplate(name: string, prompt: string)
      modifies this
      requires Valid()
      ensures Valid()
      ensures templates == old(templates)[name := prompt]
      ensures GetSystemPrompt(name) == prompt
    {
      templates := templates[name := prompt];
    }
  }

  /** The module-level `get_system_prompt(template_name)`, which asks the
      shared manager. */
  function GetSystemPrompt(manager: PromptManager, name: string): (p: string)
    reads manager
    requires manager.Valid()
    ensures p == PromptFor(manager.templates, name)
  {
    manager.GetSystemPrompt(name)
  }

  /** A fresh manager answers every name with the default prompt. */
  lemma FreshManagerDefault(defaultPrompt: string, name: string)
    ensures PromptFor(map[Default := defaultPrompt], name) == defaultPrompt
  {
  }
}
