/** The colorama escape codes the tools print (CSI sequences; `Style.*` and `Fore.*`). */
module Ansi {

  const ResetAll: string := "\U{1B}[0m"
  const Bright: string := "\U{1B}[1m"
  const Dim: string := "\U{1B}[2m"
  const Normal: string := "\U{1B}[22m"

  const Red: string := "\U{1B}[31m"
  const Yellow: string := "\U{1B}[33m"
  const Blue: string := "\U{1B}[34m"
  const White: string := "\U{1B}[37m"
}
