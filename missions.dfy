/** The three fixed missions offered by the radio button (app.py lines 31-35). */
module Missions {

  /** Curry rice, preparing an overseas trip, a picnic lunch box. */
  datatype Mission = CurryRice | TravelPrep | PicnicLunch

}
