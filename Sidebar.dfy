/** The sidebar store of src/stores/sidebar.ts. */
module Sidebar {

  datatype ModuleType = NewChat | Conversation | Knowledge | Forms

  class SidebarStore {
    var activeModule: ModuleType
    var isHovering: bool
    var isPinned: bool

    constructor ()
      ensures activeModule == Conversation && !isHovering && !isPinned
      ensures !ShouldShowSecondary()
    {
      activeModule := Conversation;
      isHovering := false;
      isPinned := false;
    }

    /** `shouldShowSecondary`: the secondary panel shows while pinned or hovered. */
    predicate ShouldShowSecondary()
      reads this
    {
      isPinned || isHovering
    }

    /** `setActiveModule`. */
    method SetActiveModule(moduleType: ModuleType)
      modifies this`activeModule
      ensures activeModule == moduleType
      ensures ShouldShowSecondary() == old(ShouldShowSecondary())
    {
      activeModule := moduleType;
    }

    /** `setHovering`: while pinned, the panel stays shown whatever the hover state. */
    method SetHovering(value: bool)
      modifies this`isHovering
      ensures isHovering == value
      ensures ShouldShowSecondary() <==> isPinned || value
      ensures isPinned ==> ShouldShowSecondary()
    {
      isHovering := value;
    }

    /** `togglePin`: negates the pin and nothing else, so two toggles restore the state. */
    method TogglePin()
      modifies this`isPinned
      ensures isPinned == !old(isPinned)
      ensures isPinned ==> ShouldShowSecondary()
      ensures !isPinned ==> (ShouldShowSecondary() <==> isHovering)
    {
      isPinned := !isPinned;
    }
  }
}
