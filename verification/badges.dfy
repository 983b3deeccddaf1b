/** The colours of the dashboard's status badges; each stands for a pair of CSS classes. */
module Badges {

  datatype Color = Green | Yellow | Gray | Purple | Blue | Red
}
