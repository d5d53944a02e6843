/** The flag of `applyFingerprintBody` is exact: it says that the body differs. */
module ChangedFlag {
  import opened Text
  import opened Json
  import opened Pointwise
  import opened Shaping
  import opened ShapingTheorems
  import opened ShapedBodies

  /** A helper that reports no change made none. */
  predicate Honest(root: Object, edit: Edit) {
    edit.changed || edit.root == root
  }

  lemma EnvironmentIsHonest(kit: Kit, source: string, root: Object)
    ensures Honest(root, EnsureEnvironment(kit, root, source))
  {
    hide EnsureEnvironment;
    NoChangeNoDifference(kit, root, source);
  }

  lemma CapsAreHonest(root: Object)
    ensures Honest(root, NormalizeCaps(root)) && Honest(root, ForbidStore(root)) && Honest(root, ForceStream(root))
  {
    if !NormalizeCaps(root).changed {
      NoCapsIsSettled(root);
    }
  }

  lemma StripsAreHonest(root: Object)
    ensures Honest(root, StripReasoning(root)) && Honest(root, StripAdditional(root))
  {
    hide HasReasoning, WithoutReasoning, WithoutAdditional, AddTools, Promoted;
  }

  lemma ToolsAreHonest(kit: Kit, cfg: Config, source: string, root: Object)
    ensures Honest(root, EnsureTools(kit, Responses, cfg.tools, root))
    ensures Honest(root, DeclareTools(kit, cfg, source, root))
  {
    hide AddTools, ToolEntries, Missing, FirstGroup, Regroup;
  }

  lemma HygieneIsHonest(cfg: Config, toFormat: string, root: Object)
    ensures Honest(root, Hygiene(cfg, toFormat, root))
  {
    hide ForbidStore, NormalizeCaps, StripReasoning, StripAdditional, IsResponsesWire;
    CapsAreHonest(root);
    StripsAreHonest(root);
  }

  lemma QuietIsSame(kit: Kit, cfg: Config, source: string, toFormat: string, root: Object)
    ensures Honest(root, Shape(kit, cfg, source, toFormat, root))
  {
    hide ForbidStore, NormalizeCaps, StripReasoning, StripAdditional, EnsureEnvironment, ForceStream, DeclareTools,
         Shaping.EnsureTools, Hygiene;
    EnvironmentIsHonest(kit, source, root);
    CapsAreHonest(root);
    HygieneIsHonest(cfg, toFormat, root);
    ToolsAreHonest(kit, cfg, source, root);
  }

  lemma LostCarrierIsSeen(cfg: Config, toFormat: string, root: Object)
    requires CarrierLost(cfg, toFormat, root)
    ensures "input" in root && StrippedInput(StripsOf(cfg, toFormat), root["input"]) != root["input"]
  {
    hide HasEnvironment, MessagesHaveEnvironment, StrippedInput;
  }

  /** The flag is set exactly when the body comes out different: no edit is lost, and none is made up. */
  lemma FlagIsExact(kit: Kit, cfg: Config, source: string, toFormat: string, root: Object)
    requires Names(cfg.tools)
    ensures var e := Shape(kit, cfg, source, toFormat, root); e.changed <==> e.root != root
  {
    hide Shape, CarrierLost, StrippedInput, ToolsShaped, RestShaped, TakeCap, StripsOf;
    QuietIsSame(kit, cfg, source, toFormat, root);
    Shaped(kit, cfg, source, toFormat, root);
    ShapingAgain(kit, cfg, source, toFormat, root);
    if CarrierLost(cfg, toFormat, root) {
      LostCarrierIsSeen(cfg, toFormat, root);
    }
  }

  /** So the bytes that come back are those of the shaped body, or the client's own where it would be equal. */
  lemma BytesAreThoseOfTheBody(codec: Codec, kit: Kit, cfg: Config, source: string, toFormat: string, body: string,
                               root: Object)
    requires Names(cfg.tools) && body != "" && codec.unmarshal(body) == Some(Obj(root))
    ensures var f := Shape(kit, cfg, source, toFormat, root).root;
            ApplyFingerprintBody(codec, kit, cfg, source, toFormat, body) ==
            if f == root then (body, false) else (codec.marshal(f), true)
  {
    hide Shape;
    FlagIsExact(kit, cfg, source, toFormat, root);
  }
}
