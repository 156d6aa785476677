/** The page layout (`LayoutComponent`): whether the sidebar is open and whether it is collapsed. */
module Layout {

  class Layout {
    var isSidebarOpen: bool
    var isSidebarCollapsed: bool

    constructor()
      ensures !isSidebarOpen && !isSidebarCollapsed
    {
      isSidebarOpen := false;
      isSidebarCollapsed := false;
    }

    /** `toggleSidebar()`: flips open/closed; a second call restores the first state. */
    method ToggleSidebar()
      modifies this`isSidebarOpen
      ensures isSidebarOpen == !old(isSidebarOpen)
    {
      isSidebarOpen := !isSidebarOpen;
    }

    /** `toggleSidebarCollapse()`: flips collapsed/expanded; a second call restores the first state. */
    method ToggleSidebarCollapse()
      modifies this`isSidebarCollapsed
      ensures isSidebarCollapsed == !old(isSidebarCollapsed)
    {
      isSidebarCollapsed := !isSidebarCollapsed;
    }

    /** `closeSidebar()`: closes the sidebar whatever its state, so a second call changes nothing. */
    method CloseSidebar()
      modifies this`isSidebarOpen
      ensures !isSidebarOpen
    {
      isSidebarOpen := false;
    }
  }
}
