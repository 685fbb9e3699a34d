/** `ViewSetupHints`: three visibility flags, all on by default. */
module ThreeViewSetupHints {
  import Core

  /** A new object: spaces, space boundaries and openings all visible. */
  const Initial := Core.ViewSetupHints(true, true, true)

  class ViewSetupHints {
    var spacesVisible: bool
    var spaceBoundariesVisible: bool
    var openingsVisible: bool

    /** `toJSON`: the three flags as stored. */
    function ToJson(): (j: Core.ViewSetupHints)
      reads this
      ensures j.spacesVisible == spacesVisible && j.spaceBoundariesVisible == spaceBoundariesVisible
      ensures j.openingsVisible == openingsVisible
    {
      Core.ViewSetupHints(spacesVisible, spaceBoundariesVisible, openingsVisible)
    }

    constructor()
      ensures ToJson() == Initial
    {
      spacesVisible := true;
      spaceBoundariesVisible := true;
      openingsVisible := true;
    }

    /** `Object.assign(this, json)`: every flag is required, so all three are copied and `toJSON` gives the input back. */
    method FromJson(json: Core.ViewSetupHints)
      modifies this
      ensures ToJson() == json
    {
      spacesVisible := json.spacesVisible;
      spaceBoundariesVisible := json.spaceBoundariesVisible;
      openingsVisible := json.openingsVisible;
    }
  }
}
