/** The command registry: five fixed entries, each with a description and
    an action. Four actions return fixed text; the `clear` action empties
    the output buffer and returns the empty string (its effect on the
    buffer is modelled by `Portfolio.Terminal.Run`). */
module Commands {
  import opened Text

  datatype Option<T> = None | Some(value: T)

  datatype Command = Help | About | Projects | Contact | Clear

  /** The registry key of each entry: a non-empty word of lower-case ASCII
      letters, different for each entry. */
  function Name(c: Command): (n: string)
    ensures n != []
    ensures forall i :: 0 <= i < |n| ==> 'a' <= n[i] <= 'z'
    ensures c != Clear ==> n != "clear"
  {
    match c
    case Help => "help"
    case About => "about"
    case Projects => "projects"
    case Contact => "contact"
    case Clear => "clear"
  }

  /** The `description` field of each entry; the dispatcher never reads it. */
  function Description(c: Command): string {
    match c
    case Help => "List available commands"
    case About => "About me"
    case Projects => "Showcase of my projects"
    case Contact => "My contact info"
    case Clear => "Clear the terminal"
  }

  const HelpText: string :=
    "Available commands:\n"
    + "  help         Show this help message\n"
    + "  about        About me\n"
    + "  projects     List my projects\n"
    + "  contact      Contact information\n"
    + "  clear        Clear the terminal"

  const AboutText: string :=
    "Jubayer Hossen\n"
    + "A passionate developer focused on building cool web projects.\n"
    + "Skills: JavaScript, HTML, CSS, React, Python, and more."

  const ProjectsText: string :=
    "Some of my projects:\n"
    + "- Job Recruiting Agency: https://github.com/Jubayer-Hossen/JobRecruitingAgency\n"
    + "- Chess: https://github.com/Jubayer-Hossen/Chess\n"
    + "- FlappyBALs: https://github.com/Jubayer-Hossen/FlappyBALs\n"
    + "- More on my GitHub!"

  const ContactText: string :=
    "You can reach me at:\n"
    + "Email: your.email@example.com\n"
    + "GitHub: https://github.com/Jubayer-Hossen\n"
    + "LinkedIn: https://linkedin.com/in/your-profile"

  /** The string each action returns. Only `clear` returns the empty
      string, so it is the only command whose result is not printed. */
  function ActionResult(c: Command): (r: string)
    ensures r == "" <==> c == Clear
  {
    match c
    case Help => HelpText
    case About => AboutText
    case Projects => ProjectsText
    case Contact => ContactText
    case Clear => ""
  }

  /** The registry's own keys. */
  const Registry: map<string, Command> :=
    map["help" := Help, "about" := About, "projects" := Projects, "contact" := Contact, "clear" := Clear]

  /** `COMMANDS[command]`, restricted to the registry's own keys: a name is
      found exactly when it is the key of an entry, and then that entry. */
  function Lookup(name: string): (r: Option<Command>)
    ensures r.Some? ==> Name(r.value) == name
    ensures r.None? ==> forall c :: Name(c) != name
  {
    if name in Registry then Some(Registry[name]) else None
  }

  /** The registry holds exactly the five keys, each mapped to its own
      entry. */
  lemma {:induction false} RegistryKeys()
    ensures forall c :: Name(c) in Registry && Registry[Name(c)] == c
    ensures forall n :: n in Registry ==> Name(Registry[n]) == n
  {
  }

  /** Lookup is the inverse of Name. */
  lemma LookupName(c: Command)
    ensures Lookup(Name(c)) == Some(c)
  {
  }

  /** Registry keys are already in normal form, so a key is reachable
      through the dispatcher's normalisation. */
  lemma {:induction false} NamesAreNormal(c: Command)
    ensures Normalize(Name(c)) == Name(c)
    ensures ToLower(Name(c)) == Name(c)
  {
    var n := Name(c);
    assert Trimmed(n) by {
      assert !IsSpace(n[0]) && !IsSpace(n[|n| - 1]);
    }
    assert forall i :: 0 <= i < |n| ==> 'a' <= n[i] <= 'z';
    NormalFormIsFixed(n);
  }

  /** Lookup after normalisation ignores surrounding whitespace and the
      case of the letters: any padded, re-cased spelling of a key finds
      that key's entry. */
  lemma {:induction false} LookupIgnoresCaseAndPadding(p: string, u: string, q: string, c: Command)
    requires AllSpace(p) && AllSpace(q)
    requires ToLower(u) == Name(c)
    ensures Lookup(Normalize(p + u + q)) == Some(c)
  {
    NamesAreNormal(c);
    NormalizeIgnoresCaseAndPadding(p, u, q, Name(c));
    LookupName(c);
  }
}
