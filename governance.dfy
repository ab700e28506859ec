/** The run-wide policy switches derived from the command line. */
module Governance {
  import opened Wrappers

  /** The parsed command-line arguments that `from_args` reads; `seed` is None when absent. */
  datatype Args = Args(mode: string, asciiOnly: bool, noQc: bool, seed: Option<string>)

  /** The `Governors` dataclass: mode, ASCII forcing, footer switch and seed tag. */
  datatype Governors = Governors(mode: string, asciiOnly: bool, qcFooter: bool, seed: string)
  {
    /** `Governors.from_args`: execution mode forces ASCII; a missing or empty seed becomes "auto". */
    static function FromArgs(args: Args): (g: Governors)
      ensures g.mode == args.mode
      ensures g.asciiOnly <==> args.asciiOnly || args.mode == "execution"
      ensures g.qcFooter <==> !args.noQc
      ensures args.seed == None || args.seed == Some("") ==> g.seed == "auto"
      ensures args.seed.Some? && args.seed.value != "" ==> g.seed == args.seed.value
    {
      Governors(
        args.mode,
        args.asciiOnly || args.mode == "execution",
        !args.noQc,
        if args.seed.Some? && args.seed.value != "" then args.seed.value else "auto")
    }

    /** `effective_style_pack`: ASCII forcing overrides whatever pack was requested. */
    function EffectiveStylePack(requested: string): (r: string)
      ensures asciiOnly ==> r == "minimal_ascii"
      ensures !asciiOnly ==> r == requested
    {
      if asciiOnly then "minimal_ascii" else requested
    }
  }

  /** The dataclass defaults. */
  const DefaultGovernors := Governors("reasoning", false, true, "auto")

  /** In execution mode every requested style pack resolves to `minimal_ascii`. */
  lemma ExecutionModeForcesAscii(args: Args, requested: string)
    requires args.mode == "execution"
    ensures Governors.FromArgs(args).EffectiveStylePack(requested) == "minimal_ascii"
  {
  }
}
