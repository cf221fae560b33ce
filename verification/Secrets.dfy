/** The mimes that mark a whole clipboard event as a secret. */
module Secrets {
  import opened Tables

  const SENSITIVE := {
    "x-kde-passwordmanagerhint", "text/x-kde-passwordmanagerhint",
    "application/x-nspasteboard-concealed-type", "org.nspasteboard.concealedtype",
    "org.nspasteboard.transienttype", "org.nspasteboard.autogeneratedtype",
    "com.agilebits.onepassword", "de.petermaurer.transientpasteboardtype",
    "com.typeit4me.clipping", "text/x-moz-password", "x-keepassxc-password",
    "password", "secret"
  }

  function Lowered(s: string): string {
    seq(|s|, i requires 0 <= i < |s| => if 'A' <= s[i] <= 'Z' then (s[i] as int + 32) as char else s[i])
  }

  predicate IsSensitive(mime: string) {
    Lowered(mime) in SENSITIVE
  }

  /** One hint is enough: the whole draft is refused. */
  predicate AnySensitive(parts: seq<Part>) {
    exists p <- parts :: IsSensitive(p.mime)
  }
}
